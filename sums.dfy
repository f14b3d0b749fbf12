/**
 * Finite sums over integer ranges and over boxes of index tuples.
 * These give the reduction loops of a contraction their meaning.
 */
module Sums {

  /** Sum of f(0) + ... + f(n - 1); zero when n <= 0. */
  function Sum(n: int, f: int -> int): int
    decreases n
  {
    if n <= 0 then 0 else Sum(n - 1, f) + f(n - 1)
  }

  lemma {:induction false} SumExt(n: int, f: int -> int, g: int -> int)
    requires forall i :: 0 <= i < n ==> f(i) == g(i)
    ensures Sum(n, f) == Sum(n, g)
    decreases n
  {
    if n > 0 {
      SumExt(n - 1, f, g);
    }
  }

  lemma {:induction false} SumZero(n: int, f: int -> int)
    requires forall i :: 0 <= i < n ==> f(i) == 0
    ensures Sum(n, f) == 0
    decreases n
  {
    if n > 0 {
      SumZero(n - 1, f);
    }
  }

  lemma {:induction false} SumConst(n: nat, f: int -> int, c: int)
    requires forall i :: 0 <= i < n ==> f(i) == c
    ensures Sum(n, f) == n * c
    decreases n
  {
    if n > 0 {
      SumConst(n - 1, f, c);
    }
  }

  lemma {:induction false} SumAdd(n: int, f: int -> int, g: int -> int)
    ensures Sum(n, i => f(i) + g(i)) == Sum(n, f) + Sum(n, g)
    decreases n
  {
    if n > 0 {
      SumAdd(n - 1, f, g);
    }
  }

  /** Splitting a range [0, n + m) into [0, n) and [n, n + m). */
  lemma {:induction false} SumSplit(n: nat, m: nat, f: int -> int)
    ensures Sum(n + m, f) == Sum(n, f) + Sum(m, i => f(n + i))
    decreases m
  {
    if m > 0 {
      SumSplit(n, m - 1, f);
    }
  }

  /** A range of nb * b indices, walked as nb blocks of b consecutive indices. */
  lemma {:induction false} SumBlocked(nb: nat, b: nat, f: int -> int)
    ensures Sum(nb * b, f) == Sum(nb, i => Sum(b, j => f(i * b + j)))
    decreases nb
  {
    if nb > 0 {
      calc {
        Sum(nb * b, f);
        { assert nb * b == (nb - 1) * b + b; }
        Sum((nb - 1) * b + b, f);
        { SumSplit((nb - 1) * b, b, f); }
        Sum((nb - 1) * b, f) + Sum(b, j => f((nb - 1) * b + j));
        { SumBlocked(nb - 1, b, f); }
        Sum(nb - 1, i => Sum(b, j => f(i * b + j))) + Sum(b, j => f((nb - 1) * b + j));
      }
    }
  }

  /** Sum of f(x, 0) + ... + f(x, n - 1): one row of a two-dimensional sum. */
  function Row(n: int, f: (int, int) -> int, x: int): int {
    Sum(n, y => f(x, y))
  }

  lemma SumExt2(n: int, m: int, f: (int, int) -> int, g: (int, int) -> int)
    requires forall x, y :: 0 <= x < n && 0 <= y < m ==> f(x, y) == g(x, y)
    ensures Sum(n, x => Row(m, f, x)) == Sum(n, x => Row(m, g, x))
  {
    forall x | 0 <= x < n ensures Row(m, f, x) == Row(m, g, x) {
      SumExt(m, y => f(x, y), y => g(x, y));
    }
    SumExt(n, x => Row(m, f, x), x => Row(m, g, x));
  }

  /** Element y of block x, when blocks have b elements each. */
  function Flat(x: int, b: int, y: int): int {
    x * b + y
  }

  /** An index splits into its block and its offset in the block. */
  lemma FlatDivMod(x: int, b: int)
    requires b > 0
    ensures Flat(x / b, b, x % b) == x && 0 <= x % b < b
  {
  }

  /** SumBlocked with the indices written by Flat. */
  lemma SumBlockedFlat(nb: nat, b: nat, f: int -> int)
    ensures Sum(nb * b, f) == Sum(nb, x => Sum(b, y => f(Flat(x, b, y))))
  {
    SumBlocked(nb, b, f);
    forall x | 0 <= x < nb ensures Sum(b, j => f(x * b + j)) == Sum(b, y => f(Flat(x, b, y))) {
      forall j | 0 <= j < b ensures f(x * b + j) == f(Flat(x, b, j)) {
        assert Flat(x, b, j) == x * b + j;
      }
      SumExt(b, j => f(x * b + j), y => f(Flat(x, b, y)));
    }
    SumExt(nb, i => Sum(b, j => f(i * b + j)), x => Sum(b, y => f(Flat(x, b, y))));
  }

  /** SumBlocked with the inner sums written as rows. */
  lemma SumBlockedRows(nb: nat, b: nat, f: int -> int)
    ensures Sum(nb * b, f) == Sum(nb, x => Row(b, (x, y) => f(Flat(x, b, y)), x))
  {
    SumBlocked(nb, b, f);
    forall x | 0 <= x < nb ensures Sum(b, j => f(x * b + j)) == Row(b, (x, y) => f(Flat(x, b, y)), x) {
      forall j | 0 <= j < b ensures f(x * b + j) == f(Flat(x, b, j)) {
        assert Flat(x, b, j) == x * b + j;
      }
      SumExt(b, j => f(x * b + j), y => ((x, y) => f(Flat(x, b, y)))(x, y));
    }
    SumExt(nb, i => Sum(b, j => f(i * b + j)), x => Row(b, (x, y) => f(Flat(x, b, y)), x));
  }

  /** Exchanging the order of two nested sums. */
  lemma {:induction false} SumSwap(n: int, m: int, f: (int, int) -> int)
    ensures Sum(n, i => Sum(m, j => f(i, j))) == Sum(m, j => Sum(n, i => f(i, j)))
    decreases n
  {
    if n > 0 {
      var inner := j => Sum(n - 1, i => f(i, j));
      var last := j => f(n - 1, j);
      calc {
        Sum(n, i => Sum(m, j => f(i, j)));
        Sum(n - 1, i => Sum(m, j => f(i, j))) + Sum(m, j => f(n - 1, j));
        { SumSwap(n - 1, m, f); }
        Sum(m, inner) + Sum(m, last);
        { SumAdd(m, inner, last); }
        Sum(m, j => inner(j) + last(j));
        { SumExt(m, j => inner(j) + last(j), j => Sum(n, i => f(i, j))); }
        Sum(m, j => Sum(n, i => f(i, j)));
      }
    } else {
      SumZero(m, j => Sum(n, i => f(i, j)));
    }
  }

  /** An index tuple inside the box [0, bounds[0]) x ... x [0, bounds[k - 1]). */
  predicate InBox(r: seq<int>, bounds: seq<int>) {
    |r| == |bounds| && forall d :: 0 <= d < |r| ==> 0 <= r[d] < bounds[d]
  }

  /**
   * Sum of f(prefix + r) over every tuple r of the box, the first coordinate
   * outermost.
   */
  function SumBoxFrom(prefix: seq<int>, bounds: seq<int>, f: seq<int> -> int): int
    decreases |bounds|
  {
    if |bounds| == 0 then f(prefix)
    else Sum(bounds[0], i => SumBoxFrom(prefix + [i], bounds[1..], f))
  }

  /** Sum of f over every index tuple of the box. */
  function SumBox(bounds: seq<int>, f: seq<int> -> int): int {
    SumBoxFrom([], bounds, f)
  }

  lemma {:induction false} SumBoxFromExt(prefix: seq<int>, bounds: seq<int>, f: seq<int> -> int, g: seq<int> -> int)
    requires forall r :: InBox(r, bounds) ==> f(prefix + r) == g(prefix + r)
    ensures SumBoxFrom(prefix, bounds, f) == SumBoxFrom(prefix, bounds, g)
    decreases |bounds|
  {
    if |bounds| == 0 {
      assert InBox([], bounds);
      assert prefix + [] == prefix;
    } else {
      forall i | 0 <= i < bounds[0]
        ensures SumBoxFrom(prefix + [i], bounds[1..], f) == SumBoxFrom(prefix + [i], bounds[1..], g)
      {
        forall r | InBox(r, bounds[1..]) ensures f(prefix + [i] + r) == g(prefix + [i] + r) {
          assert InBox([i] + r, bounds);
          assert prefix + [i] + r == prefix + ([i] + r);
        }
        SumBoxFromExt(prefix + [i], bounds[1..], f, g);
      }
      SumExt(bounds[0], i => SumBoxFrom(prefix + [i], bounds[1..], f),
                        i => SumBoxFrom(prefix + [i], bounds[1..], g));
    }
  }

  lemma SumBoxExt(bounds: seq<int>, f: seq<int> -> int, g: seq<int> -> int)
    requires forall r :: InBox(r, bounds) ==> f(r) == g(r)
    ensures SumBox(bounds, f) == SumBox(bounds, g)
  {
    forall r | InBox(r, bounds) ensures f([] + r) == g([] + r) {
      assert [] + r == r;
    }
    SumBoxFromExt([], bounds, f, g);
  }

  /** One level of a box sum, with the index tuple built up from the prefix. */
  lemma SumBoxFrom1(p: seq<int>, a: int, f: seq<int> -> int)
    ensures SumBoxFrom(p, [a], f) == Sum(a, i => f(p + [i]))
  {
    assert [a][1..] == [];
    SumExt(a, i => SumBoxFrom(p + [i], [a][1..], f), i => f(p + [i]));
  }

  lemma SumBoxFrom2(p: seq<int>, a: int, b: int, f: seq<int> -> int)
    ensures SumBoxFrom(p, [a, b], f) == Sum(a, i => Sum(b, j => f(p + [i] + [j])))
  {
    assert [a, b][1..] == [b];
    forall i | 0 <= i < a ensures SumBoxFrom(p + [i], [b], f) == Sum(b, j => f(p + [i] + [j])) {
      SumBoxFrom1(p + [i], b, f);
    }
    SumExt(a, i => SumBoxFrom(p + [i], [a, b][1..], f), i => Sum(b, j => f(p + [i] + [j])));
  }

  /** A box sum over two coordinates, as the sum of the rows of a function agreeing with it on pairs. */
  lemma SumBoxPairs(n: int, m: int, f: seq<int> -> int, h: (int, int) -> int)
    requires forall x, y :: 0 <= x < n && 0 <= y < m ==> f([x, y]) == h(x, y)
    ensures SumBox([n, m], f) == Sum(n, x => Row(m, h, x))
  {
    SumBoxFrom2([], n, m, f);
    forall x | 0 <= x < n ensures Sum(m, y => f([] + [x] + [y])) == Row(m, h, x) {
      forall y | 0 <= y < m ensures f([] + [x] + [y]) == h(x, y) {
        assert [] + [x] + [y] == [x, y];
      }
      SumExt(m, y => f([] + [x] + [y]), y => h(x, y));
    }
    SumExt(n, x => Sum(m, y => f([] + [x] + [y])), x => Row(m, h, x));
  }

  lemma SumBoxFrom3(p: seq<int>, a: int, b: int, c: int, f: seq<int> -> int)
    ensures SumBoxFrom(p, [a, b, c], f)
         == Sum(a, i => Sum(b, j => Sum(c, k => f(p + [i] + [j] + [k]))))
  {
    assert [a, b, c][1..] == [b, c];
    forall i | 0 <= i < a
      ensures SumBoxFrom(p + [i], [b, c], f) == Sum(b, j => Sum(c, k => f(p + [i] + [j] + [k])))
    {
      SumBoxFrom2(p + [i], b, c, f);
    }
    SumExt(a, i => SumBoxFrom(p + [i], [a, b, c][1..], f),
              i => Sum(b, j => Sum(c, k => f(p + [i] + [j] + [k]))));
  }

  /** Peeling the outermost coordinate off a box sum. */
  lemma SumBoxFromCons(p: seq<int>, a: int, rest: seq<int>, f: seq<int> -> int, g: int -> int)
    requires forall i :: 0 <= i < a ==> SumBoxFrom(p + [i], rest, f) == g(i)
    ensures SumBoxFrom(p, [a] + rest, f) == Sum(a, g)
  {
    assert ([a] + rest)[1..] == rest;
    SumExt(a, i => SumBoxFrom(p + [i], rest, f), g);
  }

  /** Block x of a sum over c of h(r, s, c), when blocks have b elements each. */
  function BlockSum(h: (int, int, int) -> int, b: int, r: int, s: int, x: int): int {
    Sum(b, y => h(r, s, Flat(x, b, y)))
  }

  /** The blocks of one (r, s) row, summed, are the whole row. */
  lemma BlockSumsRow(h: (int, int, int) -> int, cb: nat, b: nat, r: int, s: int)
    ensures Sum(cb, x => BlockSum(h, b, r, s, x)) == Sum(cb * b, c => h(r, s, c))
  {
    var g := c => h(r, s, c);
    SumBlockedFlat(cb, b, g);
    forall x | 0 <= x < cb ensures Sum(b, y => g(Flat(x, b, y))) == BlockSum(h, b, r, s, x) {
      SumExt(b, y => g(Flat(x, b, y)), y => h(r, s, Flat(x, b, y)));
    }
    SumExt(cb, x => Sum(b, y => g(Flat(x, b, y))), x => BlockSum(h, b, r, s, x));
  }

  /** The innermost loop of a four-coordinate box sum at (x, r, s). */
  function Cell(f: seq<int> -> int, x: int, r: int, s: int, b: int): int {
    Sum(b, y => f([x, r, s, y]))
  }

  lemma SumBoxCell(f: seq<int> -> int, x: int, r: int, s: int, b: int)
    ensures SumBoxFrom([x, r, s], [b], f) == Cell(f, x, r, s, b)
  {
    SumBoxFrom1([x, r, s], b, f);
    forall y | 0 <= y < b ensures f([x, r, s] + [y]) == f([x, r, s, y]) {
      assert [x, r, s] + [y] == [x, r, s, y];
    }
    SumExt(b, y => f([x, r, s] + [y]), y => f([x, r, s, y]));
  }

  /** Sum over s of the cells at (x, r, s). */
  function CellRow(f: seq<int> -> int, x: int, r: int, ns: int, b: int): int {
    Sum(ns, s => Cell(f, x, r, s, b))
  }

  /** Sum over r and s of the cells at (x, r, s). */
  function CellSlice(f: seq<int> -> int, x: int, nr: int, ns: int, b: int): int {
    Sum(nr, r => CellRow(f, x, r, ns, b))
  }

  lemma SumBoxRow(f: seq<int> -> int, x: int, r: int, ns: int, b: int)
    ensures SumBoxFrom([x, r], [ns, b], f) == CellRow(f, x, r, ns, b)
  {
    assert [ns, b][1..] == [b];
    forall s | 0 <= s < ns ensures SumBoxFrom([x, r] + [s], [b], f) == Cell(f, x, r, s, b) {
      assert [x, r] + [s] == [x, r, s];
      SumBoxCell(f, x, r, s, b);
    }
    SumExt(ns, s => SumBoxFrom([x, r] + [s], [ns, b][1..], f), s => Cell(f, x, r, s, b));
  }

  lemma SumBoxSlice(f: seq<int> -> int, x: int, nr: int, ns: int, b: int)
    ensures SumBoxFrom([x], [nr, ns, b], f) == CellSlice(f, x, nr, ns, b)
  {
    assert [nr, ns, b][1..] == [ns, b];
    forall r | 0 <= r < nr ensures SumBoxFrom([x] + [r], [ns, b], f) == CellRow(f, x, r, ns, b) {
      assert [x] + [r] == [x, r];
      SumBoxRow(f, x, r, ns, b);
    }
    SumExt(nr, r => SumBoxFrom([x] + [r], [nr, ns, b][1..], f), r => CellRow(f, x, r, ns, b));
  }

  /** A four-coordinate box sum as four nested sums, the first coordinate outermost. */
  lemma SumBox4(f: seq<int> -> int, cb: int, nr: int, ns: int, b: int)
    ensures SumBox([cb, nr, ns, b], f) == Sum(cb, x => CellSlice(f, x, nr, ns, b))
  {
    assert [cb, nr, ns, b][1..] == [nr, ns, b];
    forall x | 0 <= x < cb ensures SumBoxFrom([] + [x], [nr, ns, b], f) == CellSlice(f, x, nr, ns, b) {
      assert [] + [x] == [x];
      SumBoxSlice(f, x, nr, ns, b);
    }
    SumExt(cb, x => SumBoxFrom([] + [x], [cb, nr, ns, b][1..], f), x => CellSlice(f, x, nr, ns, b));
  }

  /** Sum over s of block x of the (r, s) rows. */
  function BlockRow(h: (int, int, int) -> int, b: int, r: int, ns: int, x: int): int {
    Sum(ns, s => BlockSum(h, b, r, s, x))
  }

  /** Sum over r and s of block x of the (r, s) rows. */
  function BlockSlice(h: (int, int, int) -> int, b: int, nr: int, ns: int, x: int): int {
    Sum(nr, r => BlockRow(h, b, r, ns, x))
  }

  /** With terms h(r, s, x * b + y), the cells are the blocks of the (r, s) rows. */
  lemma SumBox4Blocks(cb: int, nr: int, ns: int, b: int, f: seq<int> -> int, h: (int, int, int) -> int)
    requires forall x, r, s, y :: 0 <= x < cb && 0 <= r < nr && 0 <= s < ns && 0 <= y < b ==>
               f([x, r, s, y]) == h(r, s, Flat(x, b, y))
    ensures SumBox([cb, nr, ns, b], f) == Sum(cb, x => BlockSlice(h, b, nr, ns, x))
  {
    SumBox4(f, cb, nr, ns, b);
    forall x, r, s | 0 <= x < cb && 0 <= r < nr && 0 <= s < ns ensures Cell(f, x, r, s, b) == BlockSum(h, b, r, s, x) {
      SumExt(b, y => f([x, r, s, y]), y => h(r, s, Flat(x, b, y)));
    }
    forall x, r | 0 <= x < cb && 0 <= r < nr ensures CellRow(f, x, r, ns, b) == BlockRow(h, b, r, ns, x) {
      SumExt(ns, s => Cell(f, x, r, s, b), s => BlockSum(h, b, r, s, x));
    }
    forall x | 0 <= x < cb ensures CellSlice(f, x, nr, ns, b) == BlockSlice(h, b, nr, ns, x) {
      SumExt(nr, r => CellRow(f, x, r, ns, b), r => BlockRow(h, b, r, ns, x));
    }
    SumExt(cb, x => CellSlice(f, x, nr, ns, b), x => BlockSlice(h, b, nr, ns, x));
  }

  /** Sum of f(0, y) + ... + f(n - 1, y): one column of a two-dimensional sum. */
  function Col(n: int, f: (int, int) -> int, y: int): int {
    Sum(n, x => f(x, y))
  }

  /** SumSwap with rows and columns named. */
  lemma SumSwapRows(n: int, m: int, f: (int, int) -> int)
    ensures Sum(n, x => Row(m, f, x)) == Sum(m, y => Col(n, f, y))
  {
    SumSwap(n, m, f);
    SumExt(n, x => Row(m, f, x), i => Sum(m, j => f(i, j)));
    SumExt(m, y => Col(n, f, y), j => Sum(n, i => f(i, j)));
  }

  /** Block x of the (r, s) row, summed over all blocks x. */
  function ColSum(h: (int, int, int) -> int, b: int, cb: int, r: int, s: int): int {
    Sum(cb, x => BlockSum(h, b, r, s, x))
  }

  function ColRow(h: (int, int, int) -> int, b: int, cb: int, r: int, ns: int): int {
    Sum(ns, s => ColSum(h, b, cb, r, s))
  }

  /** Moving the block loop x inside the s loop, for one r. */
  lemma BlockLoopInwardRow(cb: int, ns: int, b: int, h: (int, int, int) -> int, r: int)
    ensures Sum(cb, x => BlockRow(h, b, r, ns, x)) == ColRow(h, b, cb, r, ns)
  {
    var g := (x, s) => BlockSum(h, b, r, s, x);
    SumSwapRows(cb, ns, g);
    forall x | 0 <= x < cb ensures BlockRow(h, b, r, ns, x) == Row(ns, g, x) {
      SumExt(ns, s => BlockSum(h, b, r, s, x), s => g(x, s));
    }
    SumExt(cb, x => BlockRow(h, b, r, ns, x), x => Row(ns, g, x));
    forall s | 0 <= s < ns ensures Col(cb, g, s) == ColSum(h, b, cb, r, s) {
      SumExt(cb, x => g(x, s), x => BlockSum(h, b, r, s, x));
    }
    SumExt(ns, s => Col(cb, g, s), s => ColSum(h, b, cb, r, s));
  }

  /** Moving the block loop x inside the r and s loops. */
  lemma BlockLoopInward(cb: int, nr: int, ns: int, b: int, h: (int, int, int) -> int)
    ensures Sum(cb, x => BlockSlice(h, b, nr, ns, x)) == Sum(nr, r => ColRow(h, b, cb, r, ns))
  {
    var f := (x, r) => BlockRow(h, b, r, ns, x);
    SumSwapRows(cb, nr, f);
    forall x | 0 <= x < cb ensures BlockSlice(h, b, nr, ns, x) == Row(nr, f, x) {
      SumExt(nr, r => BlockRow(h, b, r, ns, x), r => f(x, r));
    }
    SumExt(cb, x => BlockSlice(h, b, nr, ns, x), x => Row(nr, f, x));
    forall r | 0 <= r < nr ensures Col(cb, f, r) == ColRow(h, b, cb, r, ns) {
      BlockLoopInwardRow(cb, ns, b, h, r);
      SumExt(cb, x => f(x, r), x => BlockRow(h, b, r, ns, x));
    }
    SumExt(nr, r => Col(cb, f, r), r => ColRow(h, b, cb, r, ns));
  }

  /** Sum over s and the c of the (r, s) row. */
  function RowSum(h: (int, int, int) -> int, nc: int, r: int, ns: int): int {
    Sum(ns, s => Sum(nc, c => h(r, s, c)))
  }

  /** The sum of h(r, s, c) over r < nr, s < ns and c < nc, with r outermost and c innermost. */
  function WindowSum(h: (int, int, int) -> int, nr: int, ns: int, nc: int): int {
    Sum(nr, r => RowSum(h, nc, r, ns))
  }

  /** A 2 x 1 x 1 window holds two terms. */
  lemma WindowOfTwoRows(h: (int, int, int) -> int, a: int, b: int)
    requires h(0, 0, 0) == a && h(1, 0, 0) == b
    ensures WindowSum(h, 2, 1, 1) == a + b
  {
    assert RowSum(h, 1, 0, 1) == h(0, 0, 0);
    assert RowSum(h, 1, 1, 1) == h(1, 0, 0);
  }

  /** Window sums of terms that agree on the window are equal. */
  lemma WindowSumExt(h: (int, int, int) -> int, g: (int, int, int) -> int, nr: int, ns: int, nc: int)
    requires forall r, s, c :: 0 <= r < nr && 0 <= s < ns && 0 <= c < nc ==> h(r, s, c) == g(r, s, c)
    ensures WindowSum(h, nr, ns, nc) == WindowSum(g, nr, ns, nc)
  {
    forall r | 0 <= r < nr ensures RowSum(h, nc, r, ns) == RowSum(g, nc, r, ns) {
      var hr := s => Sum(nc, c => h(r, s, c));
      var gr := s => Sum(nc, c => g(r, s, c));
      forall s | 0 <= s < ns ensures hr(s) == gr(s) {
        SumExt(nc, c => h(r, s, c), c => g(r, s, c));
      }
      SumExt(ns, hr, gr);
    }
    SumExt(nr, r => RowSum(h, nc, r, ns), r => RowSum(g, nc, r, ns));
  }

  /**
   * A box sum over (x, r, s, y) whose terms are h(r, s, x * b + y) is the sum
   * over r, s and the cb * b consecutive c of h(r, s, c).
   */
  lemma SumBox4Blocked(cb: nat, nr: int, ns: int, b: nat, f: seq<int> -> int, h: (int, int, int) -> int)
    requires forall x, r, s, y :: 0 <= x < cb && 0 <= r < nr && 0 <= s < ns && 0 <= y < b ==>
               f([x, r, s, y]) == h(r, s, Flat(x, b, y))
    ensures SumBox([cb, nr, ns, b], f) == WindowSum(h, nr, ns, cb * b)
  {
    SumBox4Blocks(cb, nr, ns, b, f, h);
    BlockLoopInward(cb, nr, ns, b, h);
    forall r | 0 <= r < nr ensures ColRow(h, b, cb, r, ns) == RowSum(h, cb * b, r, ns) {
      forall s | 0 <= s < ns ensures ColSum(h, b, cb, r, s) == Sum(cb * b, c => h(r, s, c)) {
        BlockSumsRow(h, cb, b, r, s);
      }
      SumExt(ns, s => ColSum(h, b, cb, r, s), s => Sum(cb * b, c => h(r, s, c)));
    }
    SumExt(nr, r => ColRow(h, b, cb, r, ns), r => RowSum(h, cb * b, r, ns));
  }
}
