/** What a block and a forward compute, written out feature by feature.

The formulas use nothing but the entries of the weights, of the input and of the cached rows, sums, and the
uninterpreted kernels; they share no definition with `Llama`. `BlockIs` and `CacheIs` say that the block
of the model computes them, `LogitsAre` says so of a whole forward. */
module BlockFormula {
  import opened Options
  import opened Arithmetic
  import opened Sequences
  import opened LinearAlgebra
  import opened Llama
  import opened ChunkedForward
  import opened Partition
  import opened KvCaches

  // ---- sums ----

  ghost function Sigma(n: nat, f: nat -> real): real {
    if n == 0 then 0.0 else Sigma(n - 1, f) + f(n - 1)
  }

  lemma {:induction false} SigmaSame(n: nat, f: nat -> real, g: nat -> real)
    requires forall i: nat :: i < n ==> f(i) == g(i)
    ensures Sigma(n, f) == Sigma(n, g)
  {
    if n > 0 {
      SigmaSame(n - 1, f, g);
    }
  }

  lemma DivideSum(a: real, b: real, z: real)
    requires z != 0.0
    ensures a / z + b / z == (a + b) / z
  {}

  lemma {:induction false} SigmaOver(n: nat, f: nat -> real, g: nat -> real, z: real)
    requires z != 0.0 && forall i: nat :: i < n ==> g(i) == f(i) / z
    ensures Sigma(n, g) == Sigma(n, f) / z
  {
    if n > 0 {
      SigmaOver(n - 1, f, g, z);
      DivideSum(Sigma(n - 1, f), f(n - 1), z);
    }
  }

  lemma {:induction false} SigmaOfZeros(n: nat, f: nat -> real)
    requires forall i: nat :: i < n ==> f(i) == 0.0
    ensures Sigma(n, f) == 0.0
  {
    if n > 0 {
      SigmaOfZeros(n - 1, f);
    }
  }

  // ---- entries ----

  function Item(v: Vec, i: nat): real {
    if i < |v| then v[i] else 0.0
  }

  function Line(w: Matrix, r: nat): Vec {
    if r < |w| then w[r] else []
  }

  function Cell(w: Matrix, r: nat, i: nat): real {
    Item(Line(w, r), i)
  }

  function Cached(rows: seq<Row>, t: nat, g: nat, j: nat): real {
    if t < |rows| then Cell(rows[t], g, j) else 0.0
  }

  /** The head and the place in the head of feature `r`, for heads of width `d`. */
  function HeadNumber(r: nat, d: nat): nat { if d == 0 then 0 else r / d }
  function Lane(r: nat, d: nat): nat { if d == 0 then 0 else r % d }

  function Product(x: real, y: real): real { x * y }

  function Ratio(a: real, z: real): real {
    if z == 0.0 then 0.0 else a / z
  }

  // ---- the formulas of one block ----

  /** One block forward: `c` holds the rows of the `position` earlier positions. */
  datatype Pass = Pass(kern: Kernels, s: Shape, b: Block, xs: seq<Vec>, position: nat, c: LayerCache)

  /** Feature `i` of a normalized vector. */
  ghost function NormedAt(kern: Kernels, weight: Vec, x: Vec, i: nat): real {
    Product(kern.rms(x), Product(Item(weight, i), Item(x, i)))
  }

  /** The terms of feature `r` of a linear layer behind a normalization. */
  ghost function Normalized(kern: Kernels, weight: Vec, x: Vec, w: Matrix, r: nat): nat -> real {
    (i: nat) => Product(Cell(w, r, i), NormedAt(kern, weight, x, i))
  }

  /** Feature `r` of a projection of the normalized input `p`. */
  ghost function ProjectedAt(a: Pass, w: Matrix, p: nat, r: nat): real {
    Sigma(|Line(a.xs, p)|, Normalized(a.kern, a.b.inputNorm, Line(a.xs, p), w, r))
  }

  /** Entry `j` of head `h` of such a projection, rotated by the angles of its position: entries `j` and
  `j + half` are the two coordinates of one plane. */
  ghost function RotatedAt(a: Pass, w: Matrix, p: nat, h: nat, j: nat): real {
    var at, half, here := h * a.s.headDim + j, a.s.headDim / 2, a.position + p;
    if j < half then Product(ProjectedAt(a, w, p, at), a.kern.cos(here, j)) - Product(ProjectedAt(a, w, p, at + half), a.kern.sin(here, j))
    else if j < 2 * half
    then Product(ProjectedAt(a, w, p, at), a.kern.cos(here, j - half)) + Product(ProjectedAt(a, w, p, at - half), a.kern.sin(here, j - half))
    else ProjectedAt(a, w, p, at)
  }

  /** Keys and values at the absolute position `t`, from the cache or from the input. */
  ghost function KeyAt(a: Pass, t: nat, g: nat, j: nat): real {
    if t < a.position then Cached(a.c.keys, t, g, j) else RotatedAt(a, a.b.k, t - a.position, g, j)
  }

  ghost function ValueAt(a: Pass, t: nat, g: nat, j: nat): real {
    if t < a.position then Cached(a.c.values, t, g, j) else ProjectedAt(a, a.b.v, t - a.position, g * a.s.headDim + j)
  }

  /** The compact head that query head `h` reads. */
  function GroupNumber(s: Shape, h: nat): nat {
    if s.kvHeads == 0 || s.queryHeads / s.kvHeads == 0 then 0 else h / (s.queryHeads / s.kvHeads)
  }

  /** exp of the scaled product of query `p` and key `t` in head `h`. */
  ghost function ExpAt(a: Pass, p: nat, h: nat, t: nat): real {
    a.kern.exp(Product(a.s.scale, Sigma(a.s.headDim, Products(a, p, h, t))))
  }

  ghost function Products(a: Pass, p: nat, h: nat, t: nat): nat -> real {
    (j: nat) => Product(RotatedAt(a, a.b.q, p, h, j), KeyAt(a, t, GroupNumber(a.s, h), j))
  }

  /** Entry `j` of the output of head `h`: the mean of the values of positions up to the query's own,
  weighted by those exponentials. */
  ghost function AttendedAt(a: Pass, p: nat, h: nat, j: nat): real {
    Ratio(Sigma(a.position + p + 1, Weighted(a, p, h, j)), Sigma(a.position + p + 1, Exponentials(a, p, h)))
  }

  ghost function Exponentials(a: Pass, p: nat, h: nat): nat -> real {
    (t: nat) => ExpAt(a, p, h, t)
  }

  ghost function Weighted(a: Pass, p: nat, h: nat, j: nat): nat -> real {
    (t: nat) => Product(ExpAt(a, p, h, t), ValueAt(a, t, GroupNumber(a.s, h), j))
  }

  /** Feature `i` after attention and the first residual addition. */
  ghost function MiddleAt(a: Pass, p: nat, i: nat): real {
    Cell(a.xs, p, i) + Sigma(a.s.queryHeads * a.s.headDim, Joined(a, p, i))
  }

  ghost function Joined(a: Pass, p: nat, i: nat): nat -> real {
    (r: nat) => Product(Cell(a.b.o, i, r), AttendedAt(a, p, HeadNumber(r, a.s.headDim), Lane(r, a.s.headDim)))
  }

  ghost function Middle(a: Pass, p: nat): (m: Vec)
    ensures |m| == |Line(a.xs, p)|
  {
    seq(|Line(a.xs, p)|, (i: nat) => MiddleAt(a, p, i))
  }

  /** Feature `f` of the gated features: silu of the gate, times the up projection. */
  ghost function FeatureAt(a: Pass, p: nat, f: nat): real {
    var m := Middle(a, p);
    Product(a.kern.silu(Sigma(|m|, Normalized(a.kern, a.b.postNorm, m, a.b.gate, f))), Sigma(|m|, Normalized(a.kern, a.b.postNorm, m, a.b.up, f)))
  }

  /** Feature `i` that the block puts out at input position `p`. */
  ghost function OutAt(a: Pass, p: nat, i: nat): real {
    MiddleAt(a, p, i) + Sigma(|a.b.gate|, Lowered(a, p, i))
  }

  ghost function Lowered(a: Pass, p: nat, i: nat): nat -> real {
    (f: nat) => Product(Cell(a.b.down, i, f), FeatureAt(a, p, f))
  }

  // ---- what the loader guarantees ----

  ghost predicate IsMatrix(m: Matrix, rows: nat, columns: nat) {
    |m| == rows && forall r :: 0 <= r < rows ==> |m[r]| == columns
  }

  /** The weights of a block fit together: every matrix is as wide as the vector it is applied to. */
  ghost predicate BlockFits(s: Shape, b: Block, width: nat, inner: nat) {
    && 0 < s.kvHeads <= s.queryHeads && s.queryHeads % s.kvHeads == 0
    && |b.inputNorm| == |b.postNorm| == width
    && IsMatrix(b.q, s.queryHeads * s.headDim, width)
    && IsMatrix(b.k, s.kvHeads * s.headDim, width) && IsMatrix(b.v, s.kvHeads * s.headDim, width)
    && IsMatrix(b.o, width, s.queryHeads * s.headDim)
    && IsMatrix(b.gate, inner, width) && IsMatrix(b.up, inner, width) && IsMatrix(b.down, width, inner)
  }

  /** The cached rows are compact heads of the right width, one per earlier position. */
  ghost predicate CacheFits(s: Shape, c: LayerCache, position: nat) {
    && |c.keys| == |c.values| == position
    && forall t :: 0 <= t < position ==> RowShaped(c.keys[t], s.kvHeads, s.headDim) && RowShaped(c.values[t], s.kvHeads, s.headDim)
  }

  ghost predicate Fits(a: Pass, width: nat, inner: nat) {
    BlockFits(a.s, a.b, width, inner) && CacheFits(a.s, a.c, a.position) && forall p :: 0 <= p < |a.xs| ==> |a.xs[p]| == width
  }

  // ---- linear layers ----

  lemma {:induction false} DotIs(x: Vec, y: Vec, f: nat -> real)
    requires |x| == |y| && forall i: nat :: i < |x| ==> f(i) == Product(x[i], y[i])
    ensures Dot(x, y) == Sigma(|x|, f)
  {
    if x != [] {
      var n := |x| - 1;
      DotIs(x[..n], y[..n], f);
      DotAppend(x[..n], [x[n]], y[..n], [y[n]]);
      assert x == x[..n] + [x[n]] && y == y[..n] + [y[n]];
      assert Dot([x[n]], [y[n]]) == x[n] * y[n] + Dot([], []) by {
        assert [x[n]][1..] == [] && [y[n]][1..] == [];
      }
    }
  }

  lemma LinearIs(w: Matrix, x: Vec, r: nat, f: nat -> real)
    requires r < |w| && |w[r]| == |x| && forall i: nat :: i < |x| ==> f(i) == Product(Cell(w, r, i), x[i])
    ensures Linear(w, x)[r] == Sigma(|x|, f)
  {
    DotIs(w[r], x, f);
  }

  lemma NormIs(kern: Kernels, weight: Vec, x: Vec, i: nat)
    requires |weight| == |x| && i < |x|
    ensures Norm(kern, weight, x)[i] == NormedAt(kern, weight, x, i)
  {}

  /** A linear layer behind a normalization. */
  lemma NormedLinearIs(kern: Kernels, weight: Vec, x: Vec, w: Matrix, r: nat)
    requires |weight| == |x| && r < |w| && |w[r]| == |x|
    ensures Linear(w, Norm(kern, weight, x))[r] == Sigma(|x|, Normalized(kern, weight, x, w, r))
  {
    hide Product, Sigma, Linear, NormedAt, Cell;
    var n, f := Norm(kern, weight, x), Normalized(kern, weight, x, w, r);
    forall i: nat | i < |x| ensures f(i) == Product(Cell(w, r, i), n[i]) {
      NormIs(kern, weight, x, i);
    }
    hide Product, Norm;
    LinearIs(w, n, r, f);
  }

  lemma ProjectionIs(a: Pass, width: nat, w: Matrix, p: nat, r: nat)
    requires p < |a.xs| && |a.xs[p]| == |a.b.inputNorm| == width && r < |w| && |w[r]| == width
    ensures Linear(w, Norm(a.kern, a.b.inputNorm, a.xs[p]))[r] == ProjectedAt(a, w, p, r)
  {
    hide Product, Sigma, Linear, Norm;
    NormedLinearIs(a.kern, a.b.inputNorm, a.xs[p], w, r);
  }

  // ---- heads ----

  lemma InRange(h: nat, heads: nat, j: nat, d: nat)
    requires h < heads && j < d
    ensures h * d + j < heads * d && (h + 1) * d <= heads * d
  {
    PieceFits(h, heads, d);
    MulSucc(h, d);
  }

  /** Entry `j` of head `h` of a projection, before any rotation. */
  lemma HeadIs(a: Pass, width: nat, w: Matrix, heads: nat, p: nat, h: nat, j: nat)
    requires p < |a.xs| && |a.xs[p]| == |a.b.inputNorm| == width && IsMatrix(w, heads * a.s.headDim, width) && h < heads && j < a.s.headDim
    ensures var flat := Heads(Linear(w, Norm(a.kern, a.b.inputNorm, a.xs[p])), heads, a.s.headDim);
            |flat[h]| == a.s.headDim && flat[h][j] == ProjectedAt(a, w, p, h * a.s.headDim + j)
  {
    var d := a.s.headDim;
    hide Product, Norm, ProjectedAt;
    InRange(h, heads, j, d);
    PieceAt(Linear(w, Norm(a.kern, a.b.inputNorm, a.xs[p])), h, d, j);
    ProjectionIs(a, width, w, p, h * d + j);
    hide Product, Linear;
  }

  lemma RopeIs(kern: Kernels, x: Vec, p: nat, j: nat)
    requires j < |x|
    ensures var half := |x| / 2;
            Rope(kern, x, p)[j] == if j < half then Product(x[j], kern.cos(p, j)) - Product(x[j + half], kern.sin(p, j))
                                   else if j < 2 * half then Product(x[j], kern.cos(p, j - half)) + Product(x[j - half], kern.sin(p, j - half))
                                   else x[j]
  {}

  lemma RotationIs(a: Pass, width: nat, w: Matrix, heads: nat, p: nat, h: nat, j: nat)
    requires p < |a.xs| && |a.xs[p]| == |a.b.inputNorm| == width && IsMatrix(w, heads * a.s.headDim, width) && h < heads && j < a.s.headDim
    ensures var row := RopeHeads(a.kern, Heads(Linear(w, Norm(a.kern, a.b.inputNorm, a.xs[p])), heads, a.s.headDim), a.position + p);
            |row| == heads && |row[h]| == a.s.headDim && row[h][j] == RotatedAt(a, w, p, h, j)
  {
    hide Product, Linear, Norm, Heads, Rope, ProjectedAt, IsMatrix;
    var d, half := a.s.headDim, a.s.headDim / 2;
    var flat := Heads(Linear(w, Norm(a.kern, a.b.inputNorm, a.xs[p])), heads, d);
    HeadIs(a, width, w, heads, p, h, j);
    RopeIs(a.kern, flat[h], a.position + p, j);
    if j < half {
      HeadIs(a, width, w, heads, p, h, j + half);
    } else if j < 2 * half {
      HeadIs(a, width, w, heads, p, h, j - half);
    }
  }

  // ---- the cache ----

  lemma KeyRowIs(a: Pass, width: nat, inner: nat, p: nat, g: nat, j: nat)
    requires Fits(a, width, inner) && p < |a.xs| && g < a.s.kvHeads && j < a.s.headDim
    ensures var key := KeyRow(a.kern, a.s, a.b, Norm(a.kern, a.b.inputNorm, a.xs[p]), a.position + p);
            |key| == a.s.kvHeads && |key[g]| == a.s.headDim && key[g][j] == RotatedAt(a, a.b.k, p, g, j)
  {
    hide Product, Norm, Linear, Heads, RopeHeads, RotatedAt, IsMatrix, CacheFits;
    RotationIs(a, width, a.b.k, a.s.kvHeads, p, g, j);
  }

  lemma ValueRowIs(a: Pass, width: nat, inner: nat, p: nat, g: nat, j: nat)
    requires Fits(a, width, inner) && p < |a.xs| && g < a.s.kvHeads && j < a.s.headDim
    ensures var value := ValueRow(a.s, a.b, Norm(a.kern, a.b.inputNorm, a.xs[p]));
            |value| == a.s.kvHeads && |value[g]| == a.s.headDim && value[g][j] == ProjectedAt(a, a.b.v, p, g * a.s.headDim + j)
  {
    hide Product, Norm, Linear, Heads, ProjectedAt, IsMatrix, CacheFits;
    HeadIs(a, width, a.b.v, a.s.kvHeads, p, g, j);
  }

  /** The rows the block leaves in the cache: those that were there, and the keys and values of the input. */
  lemma CacheIs(a: Pass, width: nat, inner: nat, t: nat, g: nat, j: nat)
    requires Fits(a, width, inner) && t < a.position + |a.xs| && g < a.s.kvHeads && j < a.s.headDim
    ensures var c := BlockCache(a.kern, a.s, a.b, a.xs, a.position, a.c);
            && |c.keys| == |c.values| == a.position + |a.xs|
            && |c.keys[t]| == |c.values[t]| == a.s.kvHeads && |c.keys[t][g]| == |c.values[t][g]| == a.s.headDim
            && c.keys[t][g][j] == KeyAt(a, t, g, j) && c.values[t][g][j] == ValueAt(a, t, g, j)
  {
    hide Product, Norm, KeyRow, ValueRow, ProjectedAt, RotatedAt, BlockFits;
    if t >= a.position {
      KeyRowIs(a, width, inner, t - a.position, g, j);
      ValueRowIs(a, width, inner, t - a.position, g, j);
    }
  }

  // ---- one head ----

  lemma {:induction false} TotalIs(ws: seq<real>, f: nat -> real)
    requires forall t: nat :: t < |ws| ==> f(t) == ws[t]
    ensures Total(ws) == Sigma(|ws|, f)
  {
    if ws != [] {
      TotalIs(ws[..|ws| - 1], f);
    }
  }

  lemma {:induction false} MixIs(ps: seq<real>, vs: seq<Vec>, j: nat, f: nat -> real)
    requires |ps| == |vs| && forall t: nat :: t < |ps| ==> j < |vs[t]| && f(t) == Product(ps[t], vs[t][j])
    ensures MixAt(ps, vs, j) == Sigma(|ps|, f)
  {
    if ps != [] {
      MixIs(ps[..|ps| - 1], vs[..|vs| - 1], j, f);
    }
  }

  lemma DivideFirst(e: real, v: real, z: real)
    requires z != 0.0
    ensures Product(e / z, v) == Product(e, v) / z
  {}

  lemma NothingTimes(v: real)
    ensures Product(0.0, v) == 0.0
  {}

  /** A softmax mixture is the ratio of two sums. */
  lemma MixtureIs(ws: seq<real>, vs: seq<Vec>, j: nat, e: nat -> real, ev: nat -> real)
    requires |ws| == |vs| && forall t: nat :: t < |ws| ==> j < |vs[t]| && e(t) == ws[t] && ev(t) == Product(ws[t], vs[t][j])
    ensures MixAt(Softmax(ws), vs, j) == Ratio(Sigma(|ws|, ev), Sigma(|ws|, e))
  {
    hide Product, Sigma, MixAt, Total;
    TotalIs(ws, e);
    var ps, z := Softmax(ws), Total(ws);
    var f: nat -> real := (t: nat) => if t < |ps| && j < |vs[t]| then Product(ps[t], vs[t][j]) else 0.0;
    MixIs(ps, vs, j, f);
    if z == 0.0 {
      forall t: nat | t < |ws| ensures f(t) == 0.0 {
        NothingTimes(vs[t][j]);
      }
      SigmaOfZeros(|ws|, f);
    } else {
      forall t: nat | t < |ws| ensures f(t) == ev(t) / z {
        DivideFirst(ws[t], vs[t][j], z);
      }
      SigmaOver(|ws|, ev, f, z);
    }
  }

  lemma ScoreIs(kern: Kernels, s: Shape, h: nat, q: Vec, key: Row, f: nat -> real)
    requires var k := KvHead(key, h, Repetitions(s)); |q| == |k| && forall j: nat :: j < |q| ==> f(j) == Product(q[j], k[j])
    ensures Score(kern, s, h, q, key) == kern.exp(Product(s.scale, Sigma(|q|, f)))
  {
    hide KvHead, Repetitions, Sigma, Dot;
    var k := KvHead(key, h, Repetitions(s));
    DotIs(q, k, f);
    assert Scaled(Dot(q, k), s.scale) == Product(s.scale, Dot(q, k));
  }

  lemma GroupIs(s: Shape, h: nat, row: Row)
    requires 0 < s.kvHeads <= s.queryHeads && s.queryHeads % s.kvHeads == 0 && h < s.queryHeads && |row| == s.kvHeads
    ensures GroupNumber(s, h) < s.kvHeads && KvHead(row, h, Repetitions(s)) == row[GroupNumber(s, h)]
  {
    hide Product, KvHead;
    DivExact(s.queryHeads, s.kvHeads);
    var reps := Repetitions(s);
    assert reps > 0 && s.queryHeads == s.kvHeads * reps;
    RepeatKvAt(row, reps, h);
    var g, i := GroupOf(h, reps, s.kvHeads);
  }

  /** The score of query `p` against the key at position `t`. */
  lemma ExpIs(a: Pass, width: nat, inner: nat, p: nat, h: nat, t: nat)
    requires Fits(a, width, inner) && p < |a.xs| && h < a.s.queryHeads && t < a.position + |a.xs|
    ensures var n, c := Norm(a.kern, a.b.inputNorm, a.xs[p]), BlockCache(a.kern, a.s, a.b, a.xs, a.position, a.c);
            && |c.keys| == |c.values| == a.position + |a.xs|
            && |QueryRow(a.kern, a.s, a.b, n, a.position + p)| == a.s.queryHeads
            && Score(a.kern, a.s, h, QueryRow(a.kern, a.s, a.b, n, a.position + p)[h], c.keys[t]) == ExpAt(a, p, h, t)
  {
    hide Product, Norm, Linear, Heads, RopeHeads, BlockCache, Score, KvHead, RotatedAt, KeyAt, IsMatrix, CacheFits, GroupNumber, Sigma, Repetitions;
    var s, d, g := a.s, a.s.headDim, GroupNumber(a.s, h);
    var n, c := Norm(a.kern, a.b.inputNorm, a.xs[p]), BlockCache(a.kern, a.s, a.b, a.xs, a.position, a.c);
    var q := QueryRow(a.kern, s, a.b, n, a.position + p)[h];
    assert |c.keys| == |c.values| == a.position + |a.xs| && |c.keys[t]| == s.kvHeads by {
      CacheSize(a, width, inner, t);
    }
    GroupIs(s, h, c.keys[t]);
    assert |q| == |c.keys[t][g]| == d by {
      QuerySize(a, width, inner, p, h);
      CacheHeadSize(a, width, inner, t, g);
    }
    var f := Products(a, p, h, t);
    forall j: nat | j < d ensures f(j) == Product(q[j], c.keys[t][g][j]) {
      RotationIs(a, width, a.b.q, s.queryHeads, p, h, j);
      CacheIs(a, width, inner, t, g, j);
    }
    ScoreIs(a.kern, s, h, q, c.keys[t], f);
  }

  lemma CacheSize(a: Pass, width: nat, inner: nat, t: nat)
    requires Fits(a, width, inner) && t < a.position + |a.xs|
    ensures var c := BlockCache(a.kern, a.s, a.b, a.xs, a.position, a.c);
            |c.keys| == |c.values| == a.position + |a.xs| && |c.keys[t]| == |c.values[t]| == a.s.kvHeads
  {
    hide Product, Norm, Linear;
  }

  lemma HeadSize(flat: Vec, heads: nat, d: nat, h: nat)
    requires |flat| == heads * d && h < heads
    ensures |Heads(flat, heads, d)[h]| == d
  {
    PieceFits(h, heads, d);
  }

  lemma CacheHeadSize(a: Pass, width: nat, inner: nat, t: nat, g: nat)
    requires Fits(a, width, inner) && t < a.position + |a.xs| && g < a.s.kvHeads
    ensures var c := BlockCache(a.kern, a.s, a.b, a.xs, a.position, a.c);
            && |c.keys| == |c.values| == a.position + |a.xs| && |c.keys[t]| == |c.values[t]| == a.s.kvHeads
            && |c.keys[t][g]| == |c.values[t][g]| == a.s.headDim
  {
    hide Product, Linear, Norm, Heads;
    if t >= a.position {
      var n := Norm(a.kern, a.b.inputNorm, a.xs[t - a.position]);
      HeadSize(Linear(a.b.k, n), a.s.kvHeads, a.s.headDim, g);
      HeadSize(Linear(a.b.v, n), a.s.kvHeads, a.s.headDim, g);
    }
  }

  lemma QuerySize(a: Pass, width: nat, inner: nat, p: nat, h: nat)
    requires Fits(a, width, inner) && p < |a.xs| && h < a.s.queryHeads
    ensures var row := QueryRow(a.kern, a.s, a.b, Norm(a.kern, a.b.inputNorm, a.xs[p]), a.position + p);
            |row| == a.s.queryHeads && |row[h]| == a.s.headDim
  {
    hide Product, Linear, Norm, Heads, CacheFits;
    HeadSize(Linear(a.b.q, Norm(a.kern, a.b.inputNorm, a.xs[p])), a.s.queryHeads, a.s.headDim, h);
  }

  lemma WeightsAt(kern: Kernels, s: Shape, h: nat, q: Vec, keys: seq<Row>, t: nat)
    requires t < |keys|
    ensures Weights(kern, s, h, q, keys, |keys|)[t] == Score(kern, s, h, q, keys[t])
  {}

  /** Over the keys it sees, a head puts out a ratio of two sums. */
  lemma HeadRatio(kern: Kernels, s: Shape, h: nat, q: Vec, keys: seq<Row>, values: seq<Row>, j: nat, e: nat -> real, ev: nat -> real)
    requires |keys| == |values| && j < s.headDim
    requires forall t: nat :: t < |keys| ==>
               var v := KvHead(values[t], h, Repetitions(s));
               j < |v| && e(t) == Score(kern, s, h, q, keys[t]) && ev(t) == Product(Score(kern, s, h, q, keys[t]), v[j])
    ensures HeadOut(kern, s, h, q, keys, values, |keys|)[j] == Ratio(Sigma(|keys|, ev), Sigma(|keys|, e))
  {
    hide Product, Sigma, Softmax, MixAt, Score, KvHead, Repetitions, Ratio, Weights;
    var ws, vs := Weights(kern, s, h, q, keys, |keys|), HeadValues(s, h, values);
    forall t: nat | t < |ws| ensures j < |vs[t]| && e(t) == ws[t] && ev(t) == Product(ws[t], vs[t][j]) {
      WeightsAt(kern, s, h, q, keys, t);
    }
    MixtureIs(ws, vs, j, e, ev);
  }

  /** The values that head `h` mixes. */
  lemma ValueIs(a: Pass, width: nat, inner: nat, h: nat, t: nat, j: nat)
    requires Fits(a, width, inner) && h < a.s.queryHeads && t < a.position + |a.xs| && j < a.s.headDim
    ensures var c := BlockCache(a.kern, a.s, a.b, a.xs, a.position, a.c);
            && |c.keys| == |c.values| == a.position + |a.xs|
            && var v := KvHead(c.values[t], h, Repetitions(a.s));
               |v| == a.s.headDim && v[j] == ValueAt(a, t, GroupNumber(a.s, h), j)
  {
    hide Product, BlockCache, KvHead, ValueAt, KeyAt, GroupNumber, Repetitions, IsMatrix, CacheFits;
    CacheSize(a, width, inner, t);
    GroupIs(a.s, h, BlockCache(a.kern, a.s, a.b, a.xs, a.position, a.c).values[t]);
    CacheIs(a, width, inner, t, GroupNumber(a.s, h), j);
  }

  /** The terms of both sums of head `h`. */
  lemma TermsAre(a: Pass, width: nat, inner: nat, p: nat, h: nat, j: nat, t: nat)
    requires Fits(a, width, inner) && p < |a.xs| && h < a.s.queryHeads && j < a.s.headDim && t < a.position + |a.xs|
    ensures var q, c := QueryRow(a.kern, a.s, a.b, Norm(a.kern, a.b.inputNorm, a.xs[p]), a.position + p), BlockCache(a.kern, a.s, a.b, a.xs, a.position, a.c);
            && |q| == a.s.queryHeads && |c.keys| == |c.values| == a.position + |a.xs|
            && var v, score := KvHead(c.values[t], h, Repetitions(a.s)), Score(a.kern, a.s, h, q[h], c.keys[t]);
               j < |v| && Exponentials(a, p, h)(t) == score && Weighted(a, p, h, j)(t) == Product(score, v[j])
  {
    hide Product, Norm, QueryRow, BlockCache, Score, KvHead, ExpAt, ValueAt, Repetitions, Fits, GroupNumber;
    ExpIs(a, width, inner, p, h, t);
    ValueIs(a, width, inner, h, t, j);
  }

  /** The output of a head over a cache of which it sees the first `n` rows. */
  lemma HeadOverPrefix(kern: Kernels, s: Shape, h: nat, q: Vec, c: LayerCache, n: nat, j: nat, e: nat -> real, ev: nat -> real)
    requires n <= |c.keys| == |c.values| && j < s.headDim
    requires forall t: nat :: t < n ==>
               var v, score := KvHead(c.values[t], h, Repetitions(s)), Score(kern, s, h, q, c.keys[t]);
               j < |v| && e(t) == score && ev(t) == Product(score, v[j])
    ensures HeadOut(kern, s, h, q, c.keys, c.values, n)[j] == Ratio(Sigma(n, ev), Sigma(n, e))
  {
    hide Product, Score, KvHead, HeadOut, Sigma, Ratio, Repetitions;
    var keys, values, moreKeys, moreValues := c.keys[..n], c.values[..n], c.keys[n..], c.values[n..];
    assert c.keys == keys + moreKeys && c.values == values + moreValues;
    HeadIgnoresMasked(kern, s, h, q, keys, values, moreKeys, moreValues, n);
    HeadRatio(kern, s, h, q, keys, values, j, e, ev);
  }

  /** Head `h` of query `p`, over the keys up to its own position. */
  lemma HeadOutIs(a: Pass, width: nat, inner: nat, p: nat, h: nat, j: nat)
    requires Fits(a, width, inner) && p < |a.xs| && h < a.s.queryHeads && j < a.s.headDim
    ensures var q := QueryRow(a.kern, a.s, a.b, Norm(a.kern, a.b.inputNorm, a.xs[p]), a.position + p);
            var c := BlockCache(a.kern, a.s, a.b, a.xs, a.position, a.c);
            && |q| == a.s.queryHeads && |c.keys| == |c.values| == a.position + |a.xs|
            && HeadOut(a.kern, a.s, h, q[h], c.keys, c.values, a.position + p + 1)[j] == AttendedAt(a, p, h, j)
  {
    hide Product, Norm, QueryRow, BlockCache, Score, KvHead, HeadOut, Exponentials, Weighted, Sigma, Ratio, Repetitions, Fits;
    var q, c := QueryRow(a.kern, a.s, a.b, Norm(a.kern, a.b.inputNorm, a.xs[p]), a.position + p), BlockCache(a.kern, a.s, a.b, a.xs, a.position, a.c);
    var n, e, ev := a.position + p + 1, Exponentials(a, p, h), Weighted(a, p, h, j);
    QuerySize(a, width, inner, p, h);
    CacheSize(a, width, inner, 0);
    forall t: nat | t < n
      ensures var v, score := KvHead(c.values[t], h, Repetitions(a.s)), Score(a.kern, a.s, h, q[h], c.keys[t]);
              j < |v| && e(t) == score && ev(t) == Product(score, v[j])
    {
      TermsAre(a, width, inner, p, h, j, t);
    }
    HeadOverPrefix(a.kern, a.s, h, q[h], c, n, j, e, ev);
  }

  // ---- the block ----

  lemma SeesUpToItself(sequence: nat, position: nat, p: nat)
    requires p < sequence
    ensures Visible(sequence, position, p, position + sequence) == position + p + 1
  {}

  /** Feature `r` of the joined heads. */
  lemma LocalIs(a: Pass, width: nat, inner: nat, p: nat, r: nat)
    requires Fits(a, width, inner) && p < |a.xs| && r < a.s.queryHeads * a.s.headDim
    ensures var local := Locals(a)[p];
            |local| == a.s.queryHeads * a.s.headDim && local[r] == AttendedAt(a, p, HeadNumber(r, a.s.headDim), Lane(r, a.s.headDim))
  {
    hide Product, Norm, QueryRow, BlockCache, HeadOut, AttendedAt, AppendRows, BlockFits, CacheFits;
    var d, c := a.s.headDim, BlockCache(a.kern, a.s, a.b, a.xs, a.position, a.c);
    var q := QueryRow(a.kern, a.s, a.b, Norm(a.kern, a.b.inputNorm, a.xs[p]), a.position + p);
    assert d > 0;
    var h, j := GroupOf(r, d, a.s.queryHeads);
    HeadOutIs(a, width, inner, p, h, j);
    CacheIsAppended(a);
    SeesUpToItself(|a.xs|, a.position, p);
    var parts := AttendRow(a.kern, a.s, q, c.keys, c.values, a.position + p + 1);
    JoinLength(parts, d);
    JoinAt(parts, d, h, j);
    DivModUnique(r, h, j, d);
  }

  lemma CacheIsAppended(a: Pass)
    ensures BlockCache(a.kern, a.s, a.b, a.xs, a.position, a.c) == AppendRows(a.kern, a.s, a.b, NormAll(a.kern, a.b.inputNorm, a.xs), a.position, a.c)
  {}

  ghost function Locals(a: Pass): (locals: seq<Vec>)
    requires |a.c.keys| == |a.c.values|
    ensures |locals| == |a.xs|
  {
    Attend(a.kern, a.s, a.b, NormAll(a.kern, a.b.inputNorm, a.xs), a.position, a.c)
  }

  lemma ResidualIs(b: Block, x: Vec, local: Vec, i: nat, f: nat -> real)
    requires i < |x| == |b.o| && |b.o[i]| == |local| && forall r: nat :: r < |local| ==> f(r) == Product(Cell(b.o, i, r), local[r])
    ensures var y := AfterAttention(b, x, local); |y| == |x| && y[i] == x[i] + Sigma(|local|, f)
  {
    hide Product, Sigma, Dot;
    LinearIs(b.o, local, i, f);
  }

  lemma JoinedIs(a: Pass, width: nat, inner: nat, p: nat, i: nat, r: nat)
    requires Fits(a, width, inner) && p < |a.xs| && r < a.s.queryHeads * a.s.headDim
    ensures |a.c.keys| == |a.c.values| && |Locals(a)[p]| == a.s.queryHeads * a.s.headDim
    ensures Joined(a, p, i)(r) == Product(Cell(a.b.o, i, r), Locals(a)[p][r])
  {
    hide Product, AttendedAt, Cell, HeadNumber, Lane, BlockFits, Locals;
    LocalIs(a, width, inner, p, r);
  }

  lemma MiddleEntryIs(a: Pass, width: nat, inner: nat, p: nat, i: nat)
    requires Fits(a, width, inner) && p < |a.xs| && i < width
    ensures var y := AfterAttention(a.b, a.xs[p], Locals(a)[p]); |y| == width && y[i] == MiddleAt(a, p, i)
  {
    assert |a.b.o| == width && |a.b.o[i]| == a.s.queryHeads * a.s.headDim && |a.c.keys| == |a.c.values|;
    hide Product, Fits, Locals, Sigma, Joined, AfterAttention;
    AttendWide(a, p);
    forall r: nat | r < a.s.queryHeads * a.s.headDim ensures Joined(a, p, i)(r) == Product(Cell(a.b.o, i, r), Locals(a)[p][r]) {
      JoinedIs(a, width, inner, p, i, r);
    }
    assert |a.xs[p]| == width by {
      InputWide(a, width, inner, p);
    }
    ResidualIs(a.b, a.xs[p], Locals(a)[p], i, Joined(a, p, i));
  }

  lemma InputWide(a: Pass, width: nat, inner: nat, p: nat)
    requires Fits(a, width, inner) && p < |a.xs|
    ensures |a.xs[p]| == width
  {}

  lemma MiddleIs(a: Pass, width: nat, inner: nat, p: nat)
    requires Fits(a, width, inner) && p < |a.xs|
    ensures AfterAttention(a.b, a.xs[p], Locals(a)[p]) == Middle(a, p) && |Middle(a, p)| == width
  {
    hide Product, Locals, AfterAttention, MiddleAt, BlockFits, CacheFits;
    MiddleWide(a, width, inner, p);
    forall i | 0 <= i < width ensures AfterAttention(a.b, a.xs[p], Locals(a)[p])[i] == MiddleAt(a, p, i) {
      MiddleEntryIs(a, width, inner, p, i);
    }
  }

  lemma MiddleWide(a: Pass, width: nat, inner: nat, p: nat)
    requires Fits(a, width, inner) && p < |a.xs|
    ensures |a.c.keys| == |a.c.values| && |AfterAttention(a.b, a.xs[p], Locals(a)[p])| == width
  {
    hide Product, Locals;
  }

  lemma AttendWide(a: Pass, p: nat)
    requires p < |a.xs| && |a.c.keys| == |a.c.values|
    ensures |Locals(a)[p]| == a.s.queryHeads * a.s.headDim
  {
    hide Product, Norm, Linear, HeadOut, AppendRows;
    var ns := NormAll(a.kern, a.b.inputNorm, a.xs);
    var c := AppendRows(a.kern, a.s, a.b, ns, a.position, a.c);
    JoinLength(AttendRow(a.kern, a.s, QueryRow(a.kern, a.s, a.b, ns[p], a.position + p), c.keys, c.values, Visible(|ns|, a.position, p, |c.keys|)), a.s.headDim);
  }

  lemma FeatureIs(a: Pass, width: nat, inner: nat, p: nat, f: nat)
    requires Fits(a, width, inner) && p < |a.xs| && f < inner
    ensures var g := Gated(a.kern, a.b, Norm(a.kern, a.b.postNorm, Middle(a, p)));
            |g| == inner && g[f] == FeatureAt(a, p, f)
  {
    hide Product, Linear, Norm, Middle, Sigma, Normalized, CacheFits, Gated;
    var m := Middle(a, p);
    GatedWide(a.kern, a.b, Norm(a.kern, a.b.postNorm, m));
    NormedLinearIs(a.kern, a.b.postNorm, m, a.b.gate, f);
    NormedLinearIs(a.kern, a.b.postNorm, m, a.b.up, f);
    GatedEntry(a.kern, a.b, Norm(a.kern, a.b.postNorm, m), f);
  }

  lemma GatedEntry(kern: Kernels, b: Block, x: Vec, f: nat)
    requires f < |b.gate| == |b.up|
    ensures Gated(kern, b, x)[f] == Product(kern.silu(Linear(b.gate, x)[f]), Linear(b.up, x)[f])
  {
    hide Linear;
  }

  lemma OutIs(a: Pass, width: nat, inner: nat, p: nat, i: nat)
    requires Fits(a, width, inner) && p < |a.xs| && i < width
    ensures var y := AfterMlp(a.kern, a.b, Middle(a, p)); |y| == width && y[i] == OutAt(a, p, i)
  {
    hide Product, Gated, Norm, Sigma, FeatureAt, CacheFits, MiddleAt;
    var g, f := Gated(a.kern, a.b, Norm(a.kern, a.b.postNorm, Middle(a, p))), Lowered(a, p, i);
    GatedWide(a.kern, a.b, Norm(a.kern, a.b.postNorm, Middle(a, p)));
    forall r: nat | r < |g| ensures f(r) == Product(Cell(a.b.down, i, r), g[r]) {
      FeatureIs(a, width, inner, p, r);
    }
    LinearIs(a.b.down, g, i, f);
  }

  lemma GatedWide(kern: Kernels, b: Block, x: Vec)
    ensures |Gated(kern, b, x)| == Min(|b.gate|, |b.up|)
  {}

  /** What the formulas put out for all positions, and the cache they leave. */
  ghost function Outs(a: Pass): (ys: seq<Vec>)
    ensures |ys| == |a.xs|
  {
    seq(|a.xs|, (p: nat) => seq(|Line(a.xs, p)|, (i: nat) => OutAt(a, p, i)))
  }

  ghost function Keys(a: Pass): (rows: seq<Row>) {
    seq(a.position + |a.xs|, (t: nat) => seq(a.s.kvHeads, (g: nat) => seq(a.s.headDim, (j: nat) => KeyAt(a, t, g, j))))
  }

  ghost function Values(a: Pass): (rows: seq<Row>) {
    seq(a.position + |a.xs|, (t: nat) => seq(a.s.kvHeads, (g: nat) => seq(a.s.headDim, (j: nat) => ValueAt(a, t, g, j))))
  }

  /** The block of the model computes the formulas, for every output feature and every cached entry. */
  lemma BlockIs(a: Pass, width: nat, inner: nat)
    requires Fits(a, width, inner)
    ensures RunBlock(a.kern, a.s, a.b, a.xs, a.position, a.c) == Outs(a)
    ensures BlockCache(a.kern, a.s, a.b, a.xs, a.position, a.c) == LayerCache(Keys(a), Values(a))
  {
    OutsAre(a, width, inner);
    KeysAre(a, width, inner);
  }

  lemma OutsAre(a: Pass, width: nat, inner: nat)
    requires Fits(a, width, inner)
    ensures RunBlock(a.kern, a.s, a.b, a.xs, a.position, a.c) == Outs(a)
  {
    assert |a.c.keys| == |a.c.values|;
    hide Product, Attend, NormAll, AfterAttention, AfterMlp, OutAt, Middle, BlockFits, CacheFits;
    var ys := RunBlock(a.kern, a.s, a.b, a.xs, a.position, a.c);
    forall p | 0 <= p < |a.xs| ensures ys[p] == Outs(a)[p] {
      MiddleIs(a, width, inner, p);
      assert ys[p] == AfterMlp(a.kern, a.b, Middle(a, p));
      OutWide(a, width, inner, p);
      forall i | 0 <= i < width ensures ys[p][i] == OutAt(a, p, i) {
        OutIs(a, width, inner, p, i);
      }
    }
  }

  lemma OutWide(a: Pass, width: nat, inner: nat, p: nat)
    requires Fits(a, width, inner) && p < |a.xs|
    ensures |AfterMlp(a.kern, a.b, Middle(a, p))| == width
  {}

  lemma KeysAre(a: Pass, width: nat, inner: nat)
    requires Fits(a, width, inner)
    ensures BlockCache(a.kern, a.s, a.b, a.xs, a.position, a.c) == LayerCache(Keys(a), Values(a))
  {
    hide Product, BlockCache, KeyAt, ValueAt, BlockFits, CacheFits;
    var c := BlockCache(a.kern, a.s, a.b, a.xs, a.position, a.c);
    BlockCacheSize(a, width, inner);
    forall t | 0 <= t < a.position + |a.xs| ensures c.keys[t] == Keys(a)[t] && c.values[t] == Values(a)[t] {
      CacheSize(a, width, inner, t);
      forall g | 0 <= g < a.s.kvHeads ensures c.keys[t][g] == Keys(a)[t][g] && c.values[t][g] == Values(a)[t][g] {
        CacheHeadSize(a, width, inner, t, g);
        forall j | 0 <= j < a.s.headDim ensures c.keys[t][g][j] == KeyAt(a, t, g, j) && c.values[t][g][j] == ValueAt(a, t, g, j) {
          CacheIs(a, width, inner, t, g, j);
        }
      }
    }
  }

  lemma BlockCacheSize(a: Pass, width: nat, inner: nat)
    requires Fits(a, width, inner)
    ensures var c := BlockCache(a.kern, a.s, a.b, a.xs, a.position, a.c); |c.keys| == |c.values| == a.position + |a.xs|
  {}

  // ---- the whole forward ----

  ghost predicate ModelFits(s: Shape, m: Model, width: nat) {
    && (forall l :: 0 <= l < |m.blocks| ==> BlockFits(s, m.blocks[l], width, |m.blocks[l].gate|))
    && |m.finalNorm| == width && IsMatrix(m.embeddings, |m.embeddings|, width) && IsMatrix(m.head, |m.head|, width)
  }

  ghost predicate CachesFit(s: Shape, caches: seq<LayerCache>, position: nat) {
    forall l :: 0 <= l < |caches| ==> CacheFits(s, caches[l], position)
  }

  /** The activations behind all blocks, block by block, and the caches. */
  ghost function HiddenAfter(kern: Kernels, s: Shape, blocks: seq<Block>, xs: seq<Vec>, position: nat, caches: seq<LayerCache>): (ys: seq<Vec>)
    requires |blocks| == |caches|
    ensures |ys| == |xs|
  {
    if blocks == [] then xs
    else HiddenAfter(kern, s, blocks[1..], Outs(Pass(kern, s, blocks[0], xs, position, caches[0])), position, caches[1..])
  }

  ghost function CachesAfter(kern: Kernels, s: Shape, blocks: seq<Block>, xs: seq<Vec>, position: nat, caches: seq<LayerCache>): seq<LayerCache>
    requires |blocks| == |caches|
  {
    if blocks == [] then []
    else
      var a := Pass(kern, s, blocks[0], xs, position, caches[0]);
      [LayerCache(Keys(a), Values(a))] + CachesAfter(kern, s, blocks[1..], Outs(a), position, caches[1..])
  }

  /** Logit `v` of the last position. */
  ghost function LogitAt(kern: Kernels, m: Model, last: Vec, v: nat): real {
    Sigma(|last|, Normalized(kern, m.finalNorm, last, m.head, v))
  }

  lemma OutsWide(a: Pass, width: nat)
    requires AllWide(a.xs, width)
    ensures AllWide(Outs(a), width)
  {
    hide OutAt;
  }

  lemma {:induction false} BlocksAre(kern: Kernels, s: Shape, blocks: seq<Block>, width: nat, xs: seq<Vec>, position: nat, caches: seq<LayerCache>)
    requires |blocks| == |caches| && Aligned(caches, position) && CachesFit(s, caches, position) && AllWide(xs, width)
    requires forall l :: 0 <= l < |blocks| ==> BlockFits(s, blocks[l], width, |blocks[l].gate|)
    ensures RunBlocks(kern, s, blocks, xs, position, caches) == HiddenAfter(kern, s, blocks, xs, position, caches)
    ensures BlockCaches(kern, s, blocks, xs, position, caches) == CachesAfter(kern, s, blocks, xs, position, caches)
    ensures AllWide(HiddenAfter(kern, s, blocks, xs, position, caches), width)
    decreases |blocks|
  {
    hide BlockFits, CacheFits, RunBlock, BlockCache, Outs, Keys, Values;
    if blocks != [] {
      var a := Pass(kern, s, blocks[0], xs, position, caches[0]);
      BlockIs(a, width, |blocks[0].gate|);
      OutsWide(a, width);
      BlocksAre(kern, s, blocks[1..], width, Outs(a), position, caches[1..]);
    }
  }

  lemma LogitsAre(kern: Kernels, m: Model, hidden: seq<Vec>, width: nat, v: nat)
    requires hidden != [] && AllWide(hidden, width) && |m.finalNorm| == width && IsMatrix(m.head, |m.head|, width) && v < |m.head|
    ensures Finish(kern, m, hidden)[v] == LogitAt(kern, m, hidden[|hidden| - 1], v)
  {
    hide Linear, Norm, Sigma, Normalized;
    NormedLinearIs(kern, m.finalNorm, hidden[|hidden| - 1], m.head, v);
  }

  /** A forward that succeeds: the embedding rows of the tokens, through the formulas of all blocks, and for
  every vocabulary entry the product of its head row with the normalized last activation. */
  lemma ForwardIs(kern: Kernels, s: Shape, m: Model, width: nat, tokens: seq<nat>, c: Cache)
    requires ValidCache(m, c) && ModelFits(s, m, width) && CachesFit(s, c.layers, Length(c))
    requires Forward(kern, s, m, tokens, Length(c), c).Ok?
    ensures var xs := seq(|tokens|, (p: nat) => if p < |tokens| then Line(m.embeddings, tokens[p]) else []);
            var hidden, done := HiddenAfter(kern, s, m.blocks, xs, Length(c), c.layers), Forward(kern, s, m, tokens, Length(c), c).value;
            && tokens != [] && |done.0| == |m.head|
            && (forall v :: 0 <= v < |m.head| ==> done.0[v] == LogitAt(kern, m, hidden[|hidden| - 1], v))
            && done.1 == c.(layers := CachesAfter(kern, s, m.blocks, xs, Length(c), c.layers))
  {
    var xs := seq(|tokens|, (p: nat) => if p < |tokens| then Line(m.embeddings, tokens[p]) else []);
    EmbeddedAre(m, width, tokens, xs);
    hide BlockFits, CacheFits, RunBlocks, BlockCaches, HiddenAfter, CachesAfter, LogitAt, Embed, Linear, Norm;
    BlocksAre(kern, s, m.blocks, width, xs, Length(c), c.layers);
    var hidden := HiddenAfter(kern, s, m.blocks, xs, Length(c), c.layers);
    forall v | 0 <= v < |m.head| ensures Finish(kern, m, hidden)[v] == LogitAt(kern, m, hidden[|hidden| - 1], v) {
      LogitsAre(kern, m, hidden, width, v);
    }
  }

  lemma EmbeddedAre(m: Model, width: nat, tokens: seq<nat>, xs: seq<Vec>)
    requires Known(m, tokens) && IsMatrix(m.embeddings, |m.embeddings|, width)
    requires |xs| == |tokens| && forall p :: 0 <= p < |tokens| ==> xs[p] == Line(m.embeddings, tokens[p])
    ensures Embed(m, tokens) == xs && AllWide(xs, width)
  {}

  /** The caches keep the shape that the next forward needs. */
  lemma {:induction false} CachesStayFit(kern: Kernels, s: Shape, blocks: seq<Block>, xs: seq<Vec>, position: nat, caches: seq<LayerCache>)
    requires |blocks| == |caches|
    ensures CachesFit(s, CachesAfter(kern, s, blocks, xs, position, caches), position + |xs|)
    decreases |blocks|
  {
    hide Outs, KeyAt, ValueAt;
    if blocks != [] {
      var a := Pass(kern, s, blocks[0], xs, position, caches[0]);
      CachesStayFit(kern, s, blocks[1..], Outs(a), position, caches[1..]);
    }
  }
}
