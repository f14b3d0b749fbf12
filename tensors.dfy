/**
 * Ranked tensors over integer elements, modelled as a shape together with a
 * function from index tuples to elements. Only the in-bounds part of `at`
 * is meaningful; two tensors are the same value when they have the same
 * shape and agree on every in-bounds index.
 */
module Tensors {
  import opened Sums

  datatype Tensor = Tensor(shape: seq<int>, at: seq<int> -> int)

  predicate InBounds(t: Tensor, idx: seq<int>) {
    InBox(idx, t.shape)
  }

  /** The element at idx, or 0 outside the tensor (the value this model gives the overhang of a partial tile). */
  function Get(t: Tensor, idx: seq<int>): int {
    if InBox(idx, t.shape) then t.at(idx) else 0
  }

  ghost predicate Equiv(t: Tensor, u: Tensor) {
    t.shape == u.shape && forall idx :: InBox(idx, t.shape) ==> t.at(idx) == u.at(idx)
  }

  /** A tensor every element of which is the given value (`linalg.fill`). */
  function Filled(shape: seq<int>, value: int): (t: Tensor)
    ensures t.shape == shape
    ensures forall idx :: t.at(idx) == value
  {
    Tensor(shape, _ => value)
  }

  /** The reference matrix product C + A * B of an M x K and a K x N matrix. */
  function Matmul(a: Tensor, b: Tensor, c: Tensor): Tensor
    requires |a.shape| == 2 && |b.shape| == 2 && |c.shape| == 2
  {
    Tensor(c.shape, idx =>
      if |idx| == 2 then
        c.at(idx) + Sum(a.shape[1], k => a.at([idx[0], k]) * b.at([k, idx[1]]))
      else 0)
  }

  /** The reference batched product: Matmul on every batch slice. */
  function BatchMatmul(a: Tensor, b: Tensor, c: Tensor): Tensor
    requires |a.shape| == 3 && |b.shape| == 3 && |c.shape| == 3
  {
    Tensor(c.shape, idx =>
      if |idx| == 3 then
        c.at(idx) + Sum(a.shape[2], k => a.at([idx[0], idx[1], k]) * b.at([idx[0], k, idx[2]]))
      else 0)
  }

  /**
   * The products of an NHWC/HWCF convolution at output (n, p, q, k) with
   * strides (sh, sw): image (n, p * sh + r, q * sw + s, c) times filter
   * (r, s, c, k), for window offset (r, s) and input channel c.
   */
  function NhwcTerms(img: Tensor, fil: Tensor, n: int, p: int, q: int, k: int, sh: int, sw: int): (int, int, int) -> int {
    (r, s, c) => Get(img, [n, Flat(p, sh, r), Flat(q, sw, s), c]) * Get(fil, [r, s, c, k])
  }

  /**
   * The reference `linalg.conv_2d_nhwc_hwcf` with unit dilations: output
   * (n, p, q, k) plus the sum of the products over the R x S window and the
   * C input channels of the RSCK filter.
   */
  function ConvNhwcHwcf(img: Tensor, fil: Tensor, out: Tensor, sh: int, sw: int): Tensor
    requires |fil.shape| == 4
  {
    Tensor(out.shape, idx =>
      if |idx| == 4 then
        out.at(idx) + WindowSum(NhwcTerms(img, fil, idx[0], idx[1], idx[2], idx[3], sh, sw), fil.shape[0], fil.shape[1], fil.shape[2])
      else 0)
  }

  /** The products of an NCHW/FCHW convolution at output (n, k, p, q): image (n, c, p * sh + r, q * sw + s) times filter (k, c, r, s). */
  function NchwTerms(img: Tensor, fil: Tensor, n: int, k: int, p: int, q: int, sh: int, sw: int): (int, int, int) -> int {
    (r, s, c) => Get(img, [n, c, Flat(p, sh, r), Flat(q, sw, s)]) * Get(fil, [k, c, r, s])
  }

  /** The reference `linalg.conv_2d_nchw_fchw` (unit dilations), over the KCRS filter's window and channels. */
  function ConvNchwFchw(img: Tensor, fil: Tensor, out: Tensor, sh: int, sw: int): Tensor
    requires |fil.shape| == 4
  {
    Tensor(out.shape, idx =>
      if |idx| == 4 then
        out.at(idx) + WindowSum(NchwTerms(img, fil, idx[0], idx[1], idx[2], idx[3], sh, sw), fil.shape[2], fil.shape[3], fil.shape[1])
      else 0)
  }

  /**
   * The products of an NHWC/HWCF convolution with strides (sh, sw) and
   * dilations (dh, dw): image (n, p * sh + r * dh, q * sw + s * dw, c) times
   * filter (r, s, c, k).
   */
  function DilatedNhwcTerms(img: Tensor, fil: Tensor, n: int, p: int, q: int, k: int, sh: int, sw: int, dh: int, dw: int): (int, int, int) -> int {
    (r, s, c) => Get(img, [n, Flat(p, sh, Flat(r, dh, 0)), Flat(q, sw, Flat(s, dw, 0)), c]) * Get(fil, [r, s, c, k])
  }

  /** `linalg.conv_2d_nhwc_hwcf` with its strides and dilations. */
  function DilatedConvNhwcHwcf(img: Tensor, fil: Tensor, out: Tensor, sh: int, sw: int, dh: int, dw: int): Tensor
    requires |fil.shape| == 4
  {
    Tensor(out.shape, idx =>
      if |idx| == 4 then
        out.at(idx) + WindowSum(DilatedNhwcTerms(img, fil, idx[0], idx[1], idx[2], idx[3], sh, sw, dh, dw), fil.shape[0], fil.shape[1], fil.shape[2])
      else 0)
  }

  /** The products of an NCHW/FCHW convolution with strides and dilations: image (n, c, p * sh + r * dh, q * sw + s * dw) times filter (k, c, r, s). */
  function DilatedNchwTerms(img: Tensor, fil: Tensor, n: int, k: int, p: int, q: int, sh: int, sw: int, dh: int, dw: int): (int, int, int) -> int {
    (r, s, c) => Get(img, [n, c, Flat(p, sh, Flat(r, dh, 0)), Flat(q, sw, Flat(s, dw, 0))]) * Get(fil, [k, c, r, s])
  }

  /** `linalg.conv_2d_nchw_fchw` with its strides and dilations. */
  function DilatedConvNchwFchw(img: Tensor, fil: Tensor, out: Tensor, sh: int, sw: int, dh: int, dw: int): Tensor
    requires |fil.shape| == 4
  {
    Tensor(out.shape, idx =>
      if |idx| == 4 then
        out.at(idx) + WindowSum(DilatedNchwTerms(img, fil, idx[0], idx[1], idx[2], idx[3], sh, sw, dh, dw), fil.shape[2], fil.shape[3], fil.shape[1])
      else 0)
  }

  /** With unit dilations the dilated convolutions are the unit-dilation references. */
  lemma UnitDilationConv(img: Tensor, fil: Tensor, out: Tensor, sh: int, sw: int)
    requires |fil.shape| == 4
    ensures Equiv(DilatedConvNhwcHwcf(img, fil, out, sh, sw, 1, 1), ConvNhwcHwcf(img, fil, out, sh, sw))
    ensures Equiv(DilatedConvNchwFchw(img, fil, out, sh, sw, 1, 1), ConvNchwFchw(img, fil, out, sh, sw))
  {
    forall idx | InBox(idx, out.shape)
      ensures DilatedConvNhwcHwcf(img, fil, out, sh, sw, 1, 1).at(idx) == ConvNhwcHwcf(img, fil, out, sh, sw).at(idx)
      ensures DilatedConvNchwFchw(img, fil, out, sh, sw, 1, 1).at(idx) == ConvNchwFchw(img, fil, out, sh, sw).at(idx)
    {
      if |idx| == 4 {
        UnitDilationTerms(img, fil, idx[0], idx[1], idx[2], idx[3], sh, sw, fil.shape);
      }
    }
  }

  /** At one output point, the unit-dilation products are the reference products. */
  lemma UnitDilationTerms(img: Tensor, fil: Tensor, i0: int, i1: int, i2: int, i3: int, sh: int, sw: int, f: seq<int>)
    requires |f| == 4
    ensures WindowSum(DilatedNhwcTerms(img, fil, i0, i1, i2, i3, sh, sw, 1, 1), f[0], f[1], f[2])
         == WindowSum(NhwcTerms(img, fil, i0, i1, i2, i3, sh, sw), f[0], f[1], f[2])
    ensures WindowSum(DilatedNchwTerms(img, fil, i0, i1, i2, i3, sh, sw, 1, 1), f[2], f[3], f[1])
         == WindowSum(NchwTerms(img, fil, i0, i1, i2, i3, sh, sw), f[2], f[3], f[1])
  {
    var h1, g1 := DilatedNhwcTerms(img, fil, i0, i1, i2, i3, sh, sw, 1, 1), NhwcTerms(img, fil, i0, i1, i2, i3, sh, sw);
    forall r, s, c ensures h1(r, s, c) == g1(r, s, c) {
      assert Flat(r, 1, 0) == r && Flat(s, 1, 0) == s;
    }
    WindowSumExt(h1, g1, f[0], f[1], f[2]);
    var h2, g2 := DilatedNchwTerms(img, fil, i0, i1, i2, i3, sh, sw, 1, 1), NchwTerms(img, fil, i0, i1, i2, i3, sh, sw);
    forall r, s, c ensures h2(r, s, c) == g2(r, s, c) {
      assert Flat(r, 1, 0) == r && Flat(s, 1, 0) == s;
    }
    WindowSumExt(h2, g2, f[2], f[3], f[1]);
  }

  /**
   * Dilation changes the result: with an image whose element at row h is h,
   * a 2 x 1 window of ones and one output point, unit dilations sum rows 0
   * and 1, dilations (2, 2) rows 0 and 2.
   */
  lemma DilationChangesConv(img: Tensor, fil: Tensor, out: Tensor)
    requires img.shape == [1, 3, 1, 1] && forall h :: 0 <= h < 3 ==> img.at([0, h, 0, 0]) == h
    requires fil.shape == [2, 1, 1, 1] && fil.at([0, 0, 0, 0]) == 1 && fil.at([1, 0, 0, 0]) == 1
    requires out.shape == [1, 1, 1, 1] && out.at([0, 0, 0, 0]) == 0
    ensures InBox([0, 0, 0, 0], out.shape)
    ensures ConvNhwcHwcf(img, fil, out, 1, 1).at([0, 0, 0, 0]) == 1
    ensures DilatedConvNhwcHwcf(img, fil, out, 1, 1, 2, 2).at([0, 0, 0, 0]) == 2
  {
    assert InBox([0, 0, 0, 0], out.shape);
    ImageRows(img);
    FilterTaps(fil);
    UnitWindowValue(img, fil);
    DilatedWindowValue(img, fil);
    var o := [0, 0, 0, 0];
    assert ConvNhwcHwcf(img, fil, out, 1, 1).at(o) == out.at(o) + WindowSum(NhwcTerms(img, fil, 0, 0, 0, 0, 1, 1), 2, 1, 1);
    assert DilatedConvNhwcHwcf(img, fil, out, 1, 1, 2, 2).at(o) == out.at(o) + WindowSum(DilatedNhwcTerms(img, fil, 0, 0, 0, 0, 1, 1, 2, 2), 2, 1, 1);
  }

  /** Without dilation the 2 x 1 window at output (0, 0, 0, 0) sums image rows 0 and 1. */
  lemma UnitWindowValue(img: Tensor, fil: Tensor)
    requires Get(img, [0, 0, 0, 0]) == 0 && Get(img, [0, 1, 0, 0]) == 1
    requires Get(fil, [0, 0, 0, 0]) == 1 && Get(fil, [1, 0, 0, 0]) == 1
    ensures WindowSum(NhwcTerms(img, fil, 0, 0, 0, 0, 1, 1), 2, 1, 1) == 1
  {
    var h := NhwcTerms(img, fil, 0, 0, 0, 0, 1, 1);
    assert h(0, 0, 0) == 0 by { UnitTermAt(img, fil, 0, [0, 0, 0, 0], [0, 0, 0, 0], 0, 1); }
    assert h(1, 0, 0) == 1 by { UnitTermAt(img, fil, 1, [0, 1, 0, 0], [1, 0, 0, 0], 1, 1); }
    WindowOfTwoRows(h, 0, 1);
  }

  /** With dilations (2, 2) the same window sums image rows 0 and 2. */
  lemma DilatedWindowValue(img: Tensor, fil: Tensor)
    requires Get(img, [0, 0, 0, 0]) == 0 && Get(img, [0, 2, 0, 0]) == 2
    requires Get(fil, [0, 0, 0, 0]) == 1 && Get(fil, [1, 0, 0, 0]) == 1
    ensures WindowSum(DilatedNhwcTerms(img, fil, 0, 0, 0, 0, 1, 1, 2, 2), 2, 1, 1) == 2
  {
    var h := DilatedNhwcTerms(img, fil, 0, 0, 0, 0, 1, 1, 2, 2);
    assert h(0, 0, 0) == 0 by { DilatedTermAt(img, fil, 0, 2, [0, 0, 0, 0], [0, 0, 0, 0], 0, 1); }
    assert h(1, 0, 0) == 2 by { DilatedTermAt(img, fil, 1, 2, [0, 2, 0, 0], [1, 0, 0, 0], 2, 1); }
    WindowOfTwoRows(h, 0, 2);
  }

  /** Product r of the R x 1 x 1 window at output (0, 0, 0, 0) with unit strides reads image row r. */
  lemma UnitTermAt(img: Tensor, fil: Tensor, r: int, i: seq<int>, j: seq<int>, x: int, w: int)
    requires i == [0, r, 0, 0] && j == [r, 0, 0, 0] && Get(img, i) == x && Get(fil, j) == w
    ensures NhwcTerms(img, fil, 0, 0, 0, 0, 1, 1)(r, 0, 0) == x * w
  {
    assert [0, Flat(0, 1, r), Flat(0, 1, 0), 0] == i;
  }

  /** The same product with dilations (dh, dh) reads image row r * dh. */
  lemma DilatedTermAt(img: Tensor, fil: Tensor, r: int, dh: int, di: seq<int>, j: seq<int>, x: int, w: int)
    requires di == [0, Flat(r, dh, 0), 0, 0] && j == [r, 0, 0, 0] && Get(img, di) == x && Get(fil, j) == w
    ensures DilatedNhwcTerms(img, fil, 0, 0, 0, 0, 1, 1, dh, dh)(r, 0, 0) == x * w
  {
    var row := Flat(r, dh, 0);
    assert Flat(0, 1, row) == row;
    assert Flat(0, dh, 0) == 0;
    assert [0, Flat(0, 1, row), Flat(0, 1, Flat(0, dh, 0)), 0] == di;
  }

  lemma ImageRows(img: Tensor)
    requires img.shape == [1, 3, 1, 1] && forall h :: 0 <= h < 3 ==> img.at([0, h, 0, 0]) == h
    ensures Get(img, [0, 0, 0, 0]) == 0 && Get(img, [0, 1, 0, 0]) == 1 && Get(img, [0, 2, 0, 0]) == 2
  {
    assert InBox([0, 0, 0, 0], img.shape) && InBox([0, 1, 0, 0], img.shape) && InBox([0, 2, 0, 0], img.shape);
  }

  lemma FilterTaps(fil: Tensor)
    requires fil.shape == [2, 1, 1, 1] && fil.at([0, 0, 0, 0]) == 1 && fil.at([1, 0, 0, 0]) == 1
    ensures Get(fil, [0, 0, 0, 0]) == 1 && Get(fil, [1, 0, 0, 0]) == 1
  {
    assert InBox([0, 0, 0, 0], fil.shape) && InBox([1, 0, 0, 0], fil.shape);
  }
}
