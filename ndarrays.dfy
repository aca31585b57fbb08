/** Flattened n-dimensional arrays in row-major order, and replication of an
    array along new leading axes (what repeated `da.stack(..., axis=0)` does). */
module NdArrays {

  /** Number of elements of an array of the given shape. */
  function Product(shape: seq<nat>): nat
  {
    if shape == [] then 1 else shape[0] * Product(shape[1..])
  }

  datatype NdArray = NdArray(shape: seq<nat>, values: seq<real>)

  /** An array whose flattened values fill its shape exactly. */
  type Grid = a: NdArray | |a.values| == Product(a.shape) witness NdArray([], [0.0])

  /** Python's `shape[-2:]`: the last two dimensions, or all of them when
      there are fewer than two. */
  function LastTwo(shape: seq<nat>): (r: seq<nat>)
    ensures |r| == if |shape| < 2 then |shape| else 2
    ensures shape == shape[..|shape| - |r|] + r
  {
    if |shape| <= 2 then shape else shape[|shape| - 2..]
  }

  /** The dimensions in front of `LastTwo(shape)`. */
  function Leading(shape: seq<nat>): (r: seq<nat>)
    ensures r + LastTwo(shape) == shape
  {
    shape[..|shape| - |LastTwo(shape)|]
  }

  /** `n` copies of `v`, one after the other. */
  function Repeat(v: seq<real>, n: nat): (r: seq<real>)
    ensures |r| == n * |v|
  {
    if n == 0 then [] else v + Repeat(v, n - 1)
  }

  /** `a[k]` for an array with at least one axis: the flat values of its
      `k`-th sub-array along the leading axis. */
  function Slab(a: Grid, k: nat): (r: seq<real>)
    requires |a.shape| > 0 && k < a.shape[0]
    ensures |r| == Product(a.shape[1..])
  {
    var m := Product(a.shape[1..]);
    MulMono(k + 1, a.shape[0], m);
    a.values[k * m..(k + 1) * m]
  }

  /** `da.stack([g] * n, axis=0)`: a new leading axis of length `n`, every
      sub-array along it a copy of `g`. dask refuses to stack nothing, so
      `n` is positive. */
  function Stack(g: Grid, n: nat): (r: Grid)
    requires n > 0
    ensures r.shape == [n] + g.shape
    ensures forall k :: 0 <= k < n ==> Slab(r, k) == g.values
  {
    ProductCons(n, g.shape);
    var r := NdArray([n] + g.shape, Repeat(g.values, n));
    assert r.shape[1..] == g.shape;
    forall k | 0 <= k < n ensures Slab(r, k) == g.values {
      RepeatSlab(g.values, n, k);
    }
    r
  }

  lemma MulMono(a: nat, b: nat, m: nat)
    requires a <= b
    ensures a * m <= b * m
  {
    assert b * m == a * m + (b - a) * m;
  }

  /** Copy `k` of `v` inside `Repeat(v, n)`, as a slice. */
  lemma {:induction false} RepeatSlab(v: seq<real>, n: nat, k: nat)
    requires k < n
    ensures (k + 1) * |v| <= |Repeat(v, n)|
    ensures Repeat(v, n)[k * |v|..(k + 1) * |v|] == v
  {
    MulMono(k + 1, n, |v|);
    if k != 0 {
      RepeatSlab(v, n - 1, k - 1);
      MulPred(k, |v|);
      MulPred(k + 1, |v|);
      assert Repeat(v, n) == v + Repeat(v, n - 1);
    }
  }

  /** The reference tiling: `g` replicated once over all the dimensions
      `lead`, giving an array of shape `lead + g.shape`. */
  function Tile(g: Grid, lead: seq<nat>): (r: Grid)
    ensures r.shape == lead + g.shape
  {
    ProductConcat(lead, g.shape);
    NdArray(lead + g.shape, Repeat(g.values, Product(lead)))
  }

  lemma {:induction false} ProductConcat(a: seq<nat>, b: seq<nat>)
    ensures Product(a + b) == Product(a) * Product(b)
  {
    if a == [] {
      assert a + b == b;
    } else {
      assert (a + b)[1..] == a[1..] + b;
      ProductConcat(a[1..], b);
      calc {
        Product(a + b);
        a[0] * Product(a[1..] + b);
        a[0] * (Product(a[1..]) * Product(b));
        (a[0] * Product(a[1..])) * Product(b);
      }
    }
  }

  lemma {:induction false} RepeatAdd(v: seq<real>, a: nat, b: nat)
    ensures Repeat(v, a + b) == Repeat(v, a) + Repeat(v, b)
  {
    if a != 0 {
      RepeatAdd(v, a - 1, b);
      assert a + b - 1 == (a - 1) + b;
    }
  }

  /** Replicating `a` times and then `b` times is replicating `a * b` times. */
  lemma {:induction false} RepeatRepeat(v: seq<real>, a: nat, b: nat)
    ensures Repeat(Repeat(v, a), b) == Repeat(v, a * b)
  {
    if b != 0 {
      RepeatRepeat(v, a, b - 1);
      RepeatAdd(v, a, a * (b - 1));
      assert a + a * (b - 1) == a * b;
    }
  }

  /** Copy `k` of `v` inside `Repeat(v, n)` is `v` itself. */
  lemma {:induction false} RepeatBlock(v: seq<real>, n: nat, k: nat, j: nat)
    requires k < n && j < |v|
    ensures k * |v| + j < |Repeat(v, n)|
    ensures Repeat(v, n)[k * |v| + j] == v[j]
  {
    if k != 0 {
      var x := (k - 1) * |v| + j;
      RepeatBlock(v, n - 1, k - 1, j);
      MulPred(k, |v|);
      assert k * |v| + j == |v| + x;
      assert Repeat(v, n) == v + Repeat(v, n - 1);
    }
  }

  lemma MulPred(k: nat, m: nat)
    requires k > 0
    ensures k * m == m + (k - 1) * m
  {
  }

  /** When `k * m < p * m`, also `k < p`. */
  lemma MulCancel(k: nat, p: nat, m: nat)
    requires k * m < p * m
    ensures k < p
  {
    assert (p - k) * m == p * m - k * m;
  }

  /** Every copy of `g` in `Tile(g, lead)` equals `g`: for each index `k` of
      the leading dimensions and each flat index `j` of `g`. */
  lemma TileBlock(g: Grid, lead: seq<nat>, k: nat, j: nat)
    requires k < Product(lead) && j < |g.values|
    ensures k * |g.values| + j < |Tile(g, lead).values|
    ensures Tile(g, lead).values[k * |g.values| + j] == g.values[j]
  {
    RepeatBlock(g.values, Product(lead), k, j);
  }

  /** The same statement with the modulo form numpy readers expect: flat cell
      `i` of the tiling holds cell `i % |g|` of the grid. */
  lemma TileAt(g: Grid, lead: seq<nat>, i: nat)
    requires i < |Tile(g, lead).values|
    ensures |g.values| > 0
    ensures Tile(g, lead).values[i] == g.values[i % |g.values|]
  {
    var m := |g.values|;
    var p := Product(lead);
    assert i < p * m;
    assert m > 0;
    SplitIndex(i, p, m);
    TileBlock(g, lead, i / m, i % m);
  }

  /** A flat index below `p * m` splits into a block `i / m` below `p` and an
      offset `i % m` below `m`. */
  lemma SplitIndex(i: nat, p: nat, m: nat)
    requires i < p * m
    ensures m > 0
    ensures i / m < p && i % m < m
    ensures i == (i / m) * m + i % m
  {
    assert m > 0;
    var k := i / m;
    assert k * m <= i;
    MulCancel(k, p, m);
  }

  lemma ProductCons(n: nat, s: seq<nat>)
    ensures Product([n] + s) == n * Product(s)
  {
    assert ([n] + s)[1..] == s;
  }

  lemma ProductTwo(a: nat, b: nat)
    ensures Product([a, b]) == a * b
  {
    assert [a, b] == [a] + [b];
    ProductCons(a, [b]);
    assert [b] == [b] + [];
    ProductCons(b, []);
  }

  /** Stacking copies of a tiling adds one leading dimension to it. */
  lemma StackTile(g: Grid, lead: seq<nat>, n: nat)
    requires n > 0
    ensures Stack(Tile(g, lead), n) == Tile(g, [n] + lead)
  {
    ProductCons(n, lead);
    RepeatRepeat(g.values, Product(lead), n);
    assert Product(lead) * n == n * Product(lead);
    assert [n] + (lead + g.shape) == ([n] + lead) + g.shape;
  }

  /** The `[t][l]` slice of a tiling over two leading dimensions (T, L) is
      the grid. */
  lemma TileSlice2(g: Grid, times: nat, levels: nat, t: nat, l: nat, j: nat)
    requires t < times && l < levels && j < |g.values|
    ensures var k: nat := t * levels + l;
            && k * |g.values| + j < |Tile(g, [times, levels]).values|
            && Tile(g, [times, levels]).values[k * |g.values| + j] == g.values[j]
  {
    ProductTwo(times, levels);
    RowMajorBelow(t, l, times, levels);
    TileBlock(g, [times, levels], t * levels + l, j);
  }

  /** A row-major index `(t, l)` of a `times` by `levels` block is in range. */
  lemma RowMajorBelow(t: nat, l: nat, times: nat, levels: nat)
    requires t < times && l < levels
    ensures t * levels + l < times * levels
  {
    MulPred(times - t, levels);
    assert times * levels == t * levels + (times - t) * levels;
  }

  /** Tiling over no dimension leaves the grid unchanged. */
  lemma TileNothing(g: Grid)
    ensures Tile(g, []) == g
  {
    assert Repeat(g.values, 1) == g.values + [];
  }
}
