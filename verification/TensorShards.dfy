/** How the weights are cut for tensor parallelism, and that the shards together compute the layer:
row-sharded outputs are pieces of the full output, column-sharded partial results add up to it. */
module TensorShards {
  import opened Arithmetic
  import opened Sequences
  import opened LinearAlgebra
  import opened Llama
  import opened CollectiveAlgebra

  // ---- cutting weights ----

  /** Rank `r`'s rows of a weight: `narrow(0, r * length, length)` with `length = rows / tp`. */
  function Rows<X>(weight: seq<X>, tp: nat, r: nat): seq<X>
    requires tp > 0
  {
    Piece(weight, r, |weight| / tp)
  }

  /** Rank `r`'s input columns of a weight. */
  function Columns(weight: Matrix, tp: nat, r: nat): (shard: Matrix)
    requires tp > 0
    ensures |shard| == |weight|
  {
    seq(|weight|, o requires 0 <= o < |weight| => Rows(weight[o], tp, r))
  }

  function ShardShape(s: Shape, tp: nat): Shape
    requires tp > 0
  {
    Shape(s.queryHeads / tp, s.kvHeads / tp, s.headDim, s.scale)
  }

  function ShardBlock(b: Block, tp: nat, r: nat): Block
    requires tp > 0
  {
    Block(b.inputNorm, Rows(b.q, tp, r), Rows(b.k, tp, r), Rows(b.v, tp, r), Columns(b.o, tp, r),
          b.postNorm, Rows(b.gate, tp, r), Rows(b.up, tp, r), Columns(b.down, tp, r))
  }

  /** Rank `r`'s compact key-value heads of cached rows. */
  function ShardRows(rows: seq<Row>, r: nat, heads: nat): (shard: seq<Row>)
    ensures |shard| == |rows|
  {
    seq(|rows|, t requires 0 <= t < |rows| => Piece(rows[t], r, heads))
  }

  function ShardLayer(c: LayerCache, r: nat, heads: nat): (shard: LayerCache)
    ensures |shard.keys| == |c.keys| && |shard.values| == |c.values|
  {
    LayerCache(ShardRows(c.keys, r, heads), ShardRows(c.values, r, heads))
  }

  /** Every cached row has all compact heads. */
  ghost predicate FullRows(c: LayerCache, kvHeads: nat) {
    && (forall t :: 0 <= t < |c.keys| ==> |c.keys[t]| == kvHeads)
    && (forall t :: 0 <= t < |c.values| ==> |c.values[t]| == kvHeads)
  }

  /** The grouped-query head counts of a valid configuration, evenly divisible by `tp`. */
  ghost predicate HeadsDivide(s: Shape, tp: nat) {
    && tp > 0 && s.kvHeads > 0 && s.queryHeads > 0
    && s.queryHeads % s.kvHeads == 0 && s.queryHeads % tp == 0 && s.kvHeads % tp == 0
  }

  /** The checkpoint's weight shapes of one block. */
  ghost predicate BlockShapes(s: Shape, b: Block, width: nat, intermediate: nat) {
    && |b.q| == s.queryHeads * s.headDim
    && |b.k| == |b.v| == s.kvHeads * s.headDim
    && |b.o| == |b.down| == width
    && (forall o :: 0 <= o < |b.o| ==> |b.o[o]| == s.queryHeads * s.headDim)
    && |b.gate| == |b.up| == intermediate
    && (forall o :: 0 <= o < |b.down| ==> |b.down[o]| == intermediate)
  }

  // ---- head arithmetic ----

  /** Head counts as products: `tp` ranks with `kv` compact heads and `reps * kv` query heads each. */
  lemma HeadCounts(s: Shape, tp: nat)
    requires HeadsDivide(s, tp)
    ensures var reps, kv := Repetitions(s), s.kvHeads / tp;
            && reps > 0 && kv > 0 && s.kvHeads == tp * kv && s.queryHeads == tp * (reps * kv)
            && s.queryHeads / tp == reps * kv && Repetitions(ShardShape(s, tp)) == reps
  {
    var reps, kv, q := s.queryHeads / s.kvHeads, s.kvHeads / tp, s.queryHeads / tp;
    DivExact(s.kvHeads, tp);
    DivExact(s.queryHeads, tp);
    DivExact(s.queryHeads, s.kvHeads);
    assert tp * q == (tp * kv) * reps;
    MulAssoc(tp, kv, reps);
    SameFactor(tp, q, kv * reps);
    DivModUnique(q, reps, 0, kv);
  }

  lemma SameFactor(n: nat, a: nat, b: nat)
    requires n > 0 && n * a == n * b
    ensures a == b
  {
    if a < b {
      MulLe(a + 1, b, n);
    } else if b < a {
      MulLe(b + 1, a, n);
    }
  }

  /** Rows of a rank when the number of rows is given as a product. */
  lemma RowsAre<X>(weight: seq<X>, tp: nat, m: nat, r: nat)
    requires tp > 0 && |weight| == tp * m && r < tp
    ensures |weight| / tp == m && (r + 1) * m <= |weight| && Rows(weight, tp, r) == Piece(weight, r, m) && |Rows(weight, tp, r)| == m
  {
    DivModUnique(|weight|, m, 0, tp);
    PieceFits(r, tp, m);
  }

  /** The group of local query head `j` on rank `r` among all groups. */
  lemma GlobalGroup(tp: nat, kv: nat, reps: nat, r: nat, j: nat) returns (group: nat)
    requires r < tp && reps > 0 && j < reps * kv
    ensures group == j / reps < kv && (r * (reps * kv) + j) / reps == r * kv + group && (r + 1) * kv <= tp * kv
  {
    var lane := j % reps;
    group := j / reps;
    assert j == group * reps + lane;
    if group >= kv {
      MulLe(kv, group, reps);
    }
    MulAssoc(r, kv, reps);
    MulDistribute(r * kv, group, reps);
    DivModUnique(r * (reps * kv) + j, r * kv + group, lane, reps);
    MulLe(r + 1, tp, kv);
  }

  /** Local query head `j` reads local compact head `j / reps`, which is the one that the global head reads. */
  lemma HeadOfShard(row: Row, tp: nat, kv: nat, reps: nat, r: nat, j: nat)
    requires |row| == tp * kv && r < tp && reps > 0 && j < reps * kv
    ensures KvHead(Piece(row, r, kv), j, reps) == KvHead(row, r * (reps * kv) + j, reps)
  {
    hide KvHead;
    var group := GlobalGroup(tp, kv, reps, r, j);
    var global := r * (reps * kv) + j;
    RepeatKvAt(Piece(row, r, kv), reps, j);
    RepeatKvAt(row, reps, global);
    MulSucc(r, kv);
    PieceAt(row, r, kv, group);
  }

  // ---- projections and heads ----

  lemma HeadsOfPiece(flat: Vec, heads: nat, r: nat, m: nat, d: nat)
    requires |flat| == heads * d && (r + 1) * m <= heads && (r + 1) * (m * d) <= |flat|
    ensures Heads(Piece(flat, r, m * d), m, d) == Piece(Heads(flat, heads, d), r, m)
  {
    hide Piece;
    var some, all := Heads(Piece(flat, r, m * d), m, d), Heads(flat, heads, d);
    assert |Piece(all, r, m)| == m;
    forall j | 0 <= j < m ensures some[j] == Piece(all, r, m)[j] {
      PieceOfPiece(flat, r, m, j, d);
      PieceAt(all, r, m, j);
    }
  }

  /** A row-sharded projection gives the rank its heads of the full projection. */
  lemma ProjectShard(weight: Matrix, x: Vec, tp: nat, r: nat, m: nat, d: nat)
    requires tp > 0 && r < tp && |weight| == (tp * m) * d
    ensures Heads(Linear(Rows(weight, tp, r), x), m, d) == Piece(Heads(Linear(weight, x), tp * m, d), r, m)
    ensures |Piece(Heads(Linear(weight, x), tp * m, d), r, m)| == m
  {
    MulAssoc(tp, m, d);
    RowsAre(weight, tp, m * d, r);
    LinearOfPiece(weight, x, r, m * d);
    PieceFits(r, tp, m);
    HeadsOfPiece(Linear(weight, x), tp * m, r, m, d);
  }

  lemma RopeOfPiece(kern: Kernels, heads: Row, r: nat, m: nat, p: nat)
    requires (r + 1) * m <= |heads|
    ensures RopeHeads(kern, Piece(heads, r, m), p) == Piece(RopeHeads(kern, heads, p), r, m)
  {
    hide Rope;
    MulSucc(r, m);
  }

  /** Queries, keys and values of a rank are its heads of the full ones. */
  lemma RowsOfShard(kern: Kernels, s: Shape, b: Block, tp: nat, r: nat, x: Vec, p: nat)
    requires HeadsDivide(s, tp) && r < tp
    requires |b.q| == s.queryHeads * s.headDim && |b.k| == |b.v| == s.kvHeads * s.headDim
    ensures var local, shard := ShardShape(s, tp), ShardBlock(b, tp, r);
            && QueryRow(kern, local, shard, x, p) == Piece(QueryRow(kern, s, b, x, p), r, local.queryHeads)
            && KeyRow(kern, local, shard, x, p) == Piece(KeyRow(kern, s, b, x, p), r, local.kvHeads)
            && ValueRow(local, shard, x) == Piece(ValueRow(s, b, x), r, local.kvHeads)
  {
    HeadCounts(s, tp);
    var q, kv, d := s.queryHeads / tp, s.kvHeads / tp, s.headDim;
    hide Heads, RopeHeads, Rows, Columns, HeadsDivide, Piece, Linear;
    ProjectShard(b.q, x, tp, r, q, d);
    ProjectShard(b.k, x, tp, r, kv, d);
    ProjectShard(b.v, x, tp, r, kv, d);
    PieceFits(r, tp, q);
    PieceFits(r, tp, kv);
    RopeOfPiece(kern, Heads(Linear(b.q, x), s.queryHeads, d), r, q, p);
    RopeOfPiece(kern, Heads(Linear(b.k, x), s.kvHeads, d), r, kv, p);
  }

  // ---- attention ----

  /** Two heads that read the same key and value vectors put out the same. */
  lemma HeadOutSame(kern: Kernels, s1: Shape, s2: Shape, h1: nat, h2: nat, q: Vec, keys1: seq<Row>, keys2: seq<Row>,
                    values1: seq<Row>, values2: seq<Row>, limit: nat)
    requires |keys1| == |values1| == |keys2| == |values2|
    requires s1.headDim == s2.headDim && s1.scale == s2.scale
    requires forall t :: 0 <= t < |keys1| ==>
               && KvHead(keys1[t], h1, Repetitions(s1)) == KvHead(keys2[t], h2, Repetitions(s2))
               && KvHead(values1[t], h1, Repetitions(s1)) == KvHead(values2[t], h2, Repetitions(s2))
    ensures HeadOut(kern, s1, h1, q, keys1, values1, limit) == HeadOut(kern, s2, h2, q, keys2, values2, limit)
  {
    hide KvHead, Softmax, MixAt;
    forall t | 0 <= t < |keys1| ensures Score(kern, s1, h1, q, keys1[t]) == Score(kern, s2, h2, q, keys2[t]) {
      assert KvHead(keys1[t], h1, Repetitions(s1)) == KvHead(keys2[t], h2, Repetitions(s2));
    }
    hide Score, Repetitions;
    assert Weights(kern, s1, h1, q, keys1, limit) == Weights(kern, s2, h2, q, keys2, limit);
    assert HeadValues(s1, h1, values1) == HeadValues(s2, h2, values2);
  }

  /** A local head over the rank's compact heads puts out what the global head puts out. */
  lemma HeadOutOfShard(kern: Kernels, s: Shape, tp: nat, r: nat, j: nat, q: Vec, keys: seq<Row>, values: seq<Row>, limit: nat)
    requires HeadsDivide(s, tp) && r < tp && j < s.queryHeads / tp && |keys| == |values|
    requires FullRows(LayerCache(keys, values), s.kvHeads)
    ensures HeadOut(kern, ShardShape(s, tp), j, q, ShardRows(keys, r, s.kvHeads / tp), ShardRows(values, r, s.kvHeads / tp), limit)
            == HeadOut(kern, s, r * (s.queryHeads / tp) + j, q, keys, values, limit)
  {
    HeadCounts(s, tp);
    var local, reps, kv, h := ShardShape(s, tp), Repetitions(s), s.kvHeads / tp, r * (s.queryHeads / tp) + j;
    hide HeadsDivide, Repetitions, KvHead, Piece, HeadOut;
    forall t | 0 <= t < |keys|
      ensures KvHead(Piece(keys[t], r, kv), j, reps) == KvHead(keys[t], h, reps)
      ensures KvHead(Piece(values[t], r, kv), j, reps) == KvHead(values[t], h, reps)
    {
      HeadOfShard(keys[t], tp, kv, reps, r, j);
      HeadOfShard(values[t], tp, kv, reps, r, j);
    }
    HeadOutSame(kern, local, s, j, h, q, ShardRows(keys, r, kv), keys, ShardRows(values, r, kv), values, limit);
  }

  /** Output `j` of a rank is output `lo + j` of all heads, `lo` being the rank's first head. */
  lemma AttendHeadOfShard(kern: Kernels, s: Shape, tp: nat, r: nat, j: nat, lo: nat, query: Row, mine: Row, keys: seq<Row>, values: seq<Row>, limit: nat)
    requires HeadsDivide(s, tp) && r < tp && j < s.queryHeads / tp && |keys| == |values|
    requires FullRows(LayerCache(keys, values), s.kvHeads) && lo == r * (s.queryHeads / tp)
    requires lo + j < |query| && j < |mine| && mine[j] == query[lo + j]
    ensures AttendRow(kern, ShardShape(s, tp), mine, ShardRows(keys, r, s.kvHeads / tp), ShardRows(values, r, s.kvHeads / tp), limit)[j]
            == AttendRow(kern, s, query, keys, values, limit)[lo + j]
  {
    hide HeadOut, HeadsDivide, FullRows, Repetitions, ShardRows, ShardShape;
    HeadOutOfShard(kern, s, tp, r, j, query[lo + j], keys, values, limit);
  }

  lemma PieceOf<X>(some: seq<X>, all: seq<X>, r: nat, m: nat, lo: nat)
    requires lo == r * m && |some| == m && lo + m <= |all| && forall j :: 0 <= j < m ==> some[j] == all[lo + j]
    ensures some == Piece(all, r, m)
  {
    PieceIs(all, r, m, lo);
    hide Piece;
  }

  /** The head outputs of a rank are its part of all head outputs. */
  lemma AttendRowOfShard(kern: Kernels, s: Shape, tp: nat, r: nat, m: nat, query: Row, keys: seq<Row>, values: seq<Row>, limit: nat)
    requires HeadsDivide(s, tp) && r < tp && m == s.queryHeads / tp && |keys| == |values|
    requires FullRows(LayerCache(keys, values), s.kvHeads) && |query| == s.queryHeads
    ensures (r + 1) * m <= |query|
    ensures AttendRow(kern, ShardShape(s, tp), Piece(query, r, m), ShardRows(keys, r, s.kvHeads / tp), ShardRows(values, r, s.kvHeads / tp), limit)
            == Piece(AttendRow(kern, s, query, keys, values, limit), r, m)
  {
    HeadCounts(s, tp);
    PieceFits(r, tp, m);
    MulSucc(r, m);
    var kv, lo, mine := s.kvHeads / tp, r * m, Piece(query, r, m);
    PieceIs(query, r, m, lo);
    var all := AttendRow(kern, s, query, keys, values, limit);
    var some := AttendRow(kern, ShardShape(s, tp), mine, ShardRows(keys, r, kv), ShardRows(values, r, kv), limit);
    assert |some| == m && |all| == |query|;
    hide AttendRow, HeadsDivide, FullRows, Piece, ShardRows, ShardShape;
    forall j | 0 <= j < m ensures some[j] == all[lo + j] {
      AttendHeadOfShard(kern, s, tp, r, j, lo, query, mine, keys, values, limit);
    }
    PieceOf(some, all, r, m, lo);
  }

  lemma AttendAtOfShard(kern: Kernels, s: Shape, b: Block, tp: nat, r: nat, x: Vec, p: nat, keys: seq<Row>, values: seq<Row>, limit: nat)
    requires HeadsDivide(s, tp) && r < tp && |keys| == |values| && FullRows(LayerCache(keys, values), s.kvHeads)
    requires |b.q| == s.queryHeads * s.headDim && |b.k| == |b.v| == s.kvHeads * s.headDim
    ensures var kv, q := s.kvHeads / tp, s.queryHeads / tp;
            AttendAt(kern, ShardShape(s, tp), ShardBlock(b, tp, r), x, p, ShardRows(keys, r, kv), ShardRows(values, r, kv), limit)
            == Piece(AttendAt(kern, s, b, x, p, keys, values, limit), r, q * s.headDim)
  {
    RowsOfShard(kern, s, b, tp, r, x, p);
    var m, query := s.queryHeads / tp, QueryRow(kern, s, b, x, p);
    assert |query| == s.queryHeads;
    AttendRowOfShard(kern, s, tp, r, m, query, keys, values, limit);
    hide AttendRow, QueryRow, HeadsDivide, FullRows, ShardBlock, Piece, Join;
    PieceOfJoin(AttendRow(kern, s, query, keys, values, limit), s.headDim, r, m);
  }

  lemma AppendOfShard(kern: Kernels, s: Shape, b: Block, tp: nat, r: nat, xs: seq<Vec>, position: nat, c: LayerCache)
    requires HeadsDivide(s, tp) && r < tp && FullRows(c, s.kvHeads)
    requires |b.q| == s.queryHeads * s.headDim && |b.k| == |b.v| == s.kvHeads * s.headDim
    ensures FullRows(AppendRows(kern, s, b, xs, position, c), s.kvHeads)
    ensures AppendRows(kern, ShardShape(s, tp), ShardBlock(b, tp, r), xs, position, ShardLayer(c, r, s.kvHeads / tp))
            == ShardLayer(AppendRows(kern, s, b, xs, position, c), r, s.kvHeads / tp)
  {
    var local, shard, kv := ShardShape(s, tp), ShardBlock(b, tp, r), s.kvHeads / tp;
    forall i | 0 <= i < |xs|
      ensures KeyRow(kern, local, shard, xs[i], position + i) == Piece(KeyRow(kern, s, b, xs[i], position + i), r, kv)
      ensures ValueRow(local, shard, xs[i]) == Piece(ValueRow(s, b, xs[i]), r, kv)
    {
      RowsOfShard(kern, s, b, tp, r, xs[i], position + i);
    }
    assert forall i :: 0 <= i < |xs| ==> |KeyRow(kern, s, b, xs[i], position + i)| == |ValueRow(s, b, xs[i])| == s.kvHeads;
    hide KeyRow, ValueRow, Piece, ShardBlock, HeadsDivide;
    var all := AppendRows(kern, s, b, xs, position, c);
    var some := AppendRows(kern, local, shard, xs, position, ShardLayer(c, r, kv));
    assert some.keys == ShardRows(all.keys, r, kv);
    assert some.values == ShardRows(all.values, r, kv);
  }

  /** The attention output of a rank is its piece of the full one, at every position. */
  lemma AttendOfShard(kern: Kernels, s: Shape, b: Block, tp: nat, r: nat, xs: seq<Vec>, position: nat, c: LayerCache, i: nat)
    requires HeadsDivide(s, tp) && r < tp && |c.keys| == |c.values| && FullRows(c, s.kvHeads) && i < |xs|
    requires |b.q| == s.queryHeads * s.headDim && |b.k| == |b.v| == s.kvHeads * s.headDim
    ensures Attend(kern, ShardShape(s, tp), ShardBlock(b, tp, r), xs, position, ShardLayer(c, r, s.kvHeads / tp))[i]
            == Piece(Attend(kern, s, b, xs, position, c)[i], r, (s.queryHeads / tp) * s.headDim)
  {
    hide HeadsDivide, FullRows, AppendRows, AttendAt, ShardBlock, ShardShape, Piece, ShardRows;
    AppendOfShard(kern, s, b, tp, r, xs, position, c);
    var c' := AppendRows(kern, s, b, xs, position, c);
    assert LayerCache(c'.keys, c'.values) == c';
    AttendAtOfShard(kern, s, b, tp, r, xs[i], position + i, c'.keys, c'.values, Visible(|xs|, position, i, |c'.keys|));
  }

  lemma AttendWidth(kern: Kernels, s: Shape, b: Block, xs: seq<Vec>, position: nat, c: LayerCache, i: nat)
    requires |c.keys| == |c.values| && i < |xs|
    ensures |Attend(kern, s, b, xs, position, c)[i]| == s.queryHeads * s.headDim
  {
    var c' := AppendRows(kern, s, b, xs, position, c);
    var row := AttendRow(kern, s, QueryRow(kern, s, b, xs[i], position + i), c'.keys, c'.values, Visible(|xs|, position, i, |c'.keys|));
    JoinLength(row, s.headDim);
  }

  // ---- sums over ranks ----

  function RealAdd(a: real, b: real): real { a + b }

  lemma RealAddIsNice()
    ensures Commutative(RealAdd) && Associative(RealAdd)
  {}

  /** The sum over ranks of one vector per rank, as an all-reduce leaves it on every rank. */
  ghost function RankSum(parts: seq<Vec>, width: nat): (sum: Vec)
    requires parts != [] && forall r :: 0 <= r < |parts| ==> |parts[r]| == width
    ensures |sum| == width
  {
    seq(width, j requires 0 <= j < width => LeftFold(RealAdd, Column(parts, j), 0, |parts|))
  }

  /** A dot product is the sum of the dot products of the pieces. */
  lemma {:induction false} DotPieces(a: Vec, x: Vec, tp: nat, n: nat, v: seq<real>, k: nat)
    requires |a| == |x| == tp * n && |v| == tp && 0 < k <= tp && k * n <= tp * n
    requires forall r :: 0 <= r < tp ==> v[r] == Dot(Piece(a, r, n), Piece(x, r, n))
    ensures LeftFold(RealAdd, v, 0, k) == Dot(a[..k * n], x[..k * n])
  {
    hide Dot;
    MulSucc(k - 1, n);
    var lo, hi := (k - 1) * n, k * n;
    assert v[k - 1] == Dot(a[lo..hi], x[lo..hi]);
    if k == 1 {
      assert lo == 0 && a[lo..hi] == a[..hi] && x[lo..hi] == x[..hi];
    } else {
      DotPieces(a, x, tp, n, v, k - 1);
      assert a[..hi] == a[..lo] + a[lo..hi] && x[..hi] == x[..lo] + x[lo..hi];
      DotAppend(a[..lo], a[lo..hi], x[..lo], x[lo..hi]);
    }
  }

  /** The partial results of a row-parallel layer add up to the full layer. */
  lemma RowParallelSums(weight: Matrix, y: Vec, tp: nat, n: nat, parts: seq<Vec>)
    requires tp > 0 && |y| == tp * n && (forall o :: 0 <= o < |weight| ==> |weight[o]| == tp * n)
    requires |parts| == tp && forall r :: 0 <= r < tp ==> parts[r] == Linear(Columns(weight, tp, r), Piece(y, r, n))
    ensures forall r :: 0 <= r < tp ==> |parts[r]| == |weight|
    ensures RankSum(parts, |weight|) == Linear(weight, y)
  {
    assert forall r :: 0 <= r < tp ==> |parts[r]| == |weight|;
    forall o | 0 <= o < |weight| ensures RankSum(parts, |weight|)[o] == Linear(weight, y)[o] {
      forall r | 0 <= r < tp ensures Column(parts, o)[r] == Dot(Piece(weight[o], r, n), Piece(y, r, n)) {
        RowsAre(weight[o], tp, n, r);
      }
      DotPieces(weight[o], y, tp, n, Column(parts, o), tp);
      assert weight[o][..tp * n] == weight[o] && y[..tp * n] == y;
    }
  }

  // ---- feed-forward network ----

  lemma GateOfSlice(f: real -> real, a: Vec, b: Vec, lo: nat, hi: nat)
    requires |a| == |b| && lo <= hi <= |a|
    ensures Times(Map(f, a[lo..hi]), b[lo..hi]) == Times(Map(f, a), b)[lo..hi]
  {
    var some, all := Times(Map(f, a[lo..hi]), b[lo..hi]), Times(Map(f, a), b);
    assert |all| == |a| && |some| == hi - lo;
    forall i | 0 <= i < hi - lo ensures some[i] == all[lo..hi][i] {
      assert all[lo + i] == f(a[lo + i]) * b[lo + i];
    }
  }

  lemma GatedOfShard(kern: Kernels, b: Block, tp: nat, r: nat, m: nat, x: Vec)
    requires tp > 0 && r < tp && |b.gate| == |b.up| == tp * m
    ensures Gated(kern, ShardBlock(b, tp, r), x) == Piece(Gated(kern, b, x), r, m)
    ensures |Gated(kern, b, x)| == tp * m
  {
    RowsAre(b.gate, tp, m, r);
    RowsAre(b.up, tp, m, r);
    LinearOfPiece(b.gate, x, r, m);
    LinearOfPiece(b.up, x, r, m);
    MulSucc(r, m);
    GateOfSlice(kern.silu, Linear(b.gate, x), Linear(b.up, x), r * m, (r + 1) * m);
  }

  // ---- vocabulary-parallel embedding ----

  /** The row a rank contributes for `token`: its own row, or row zero of its shard times zero. */
  function MaskedRow(shard: Matrix, start: nat, token: nat): Vec
    requires shard != []
  {
    var owned := start <= token < start + |shard|;
    var mask := if owned then 1.0 else 0.0;
    Map(v => v * mask, shard[if owned then token - start else 0])
  }

  lemma {:induction false} OneOwner(v: seq<real>, owner: nat, k: nat)
    requires 0 < k <= |v| && owner < |v| && forall r :: 0 <= r < |v| && r != owner ==> v[r] == 0.0
    ensures LeftFold(RealAdd, v, 0, k) == if owner < k then v[owner] else 0.0
  {
    if k > 1 {
      OneOwner(v, owner, k - 1);
    }
  }

  lemma MaskedRowFrom(embeddings: Matrix, shard: Matrix, lo: nat, width: nat, token: nat)
    requires shard != [] && lo + |shard| <= |embeddings| && shard == embeddings[lo..lo + |shard|] && token < |embeddings|
    requires forall o :: 0 <= o < |embeddings| ==> |embeddings[o]| == width
    ensures var row := MaskedRow(shard, lo, token);
            && |row| == width
            && forall j :: 0 <= j < width ==> row[j] == if lo <= token < lo + |shard| then embeddings[token][j] else 0.0
  {
    var k := if lo <= token < lo + |shard| then token - lo else 0;
    assert shard[k] == embeddings[lo + k];
  }

  /** The rows of rank `r` start at `lo`. */
  lemma RowsFrom(weight: Matrix, tp: nat, m: nat, r: nat, lo: nat)
    requires tp > 0 && |weight| == tp * m && r < tp && lo == r * m
    ensures lo + m <= |weight| && Rows(weight, tp, r) == weight[lo..lo + m]
  {
    RowsAre(weight, tp, m, r);
    MulSucc(r, m);
    PieceIs(weight, r, m, lo);
  }

  /** What rank `r`, whose rows start at `lo`, contributes to a token in `owner`'s rows. */
  lemma MaskedRowIs(embeddings: Matrix, shard: Matrix, m: nat, width: nat, owner: nat, token: nat, r: nat, lo: nat)
    requires |shard| == m > 0 && lo == r * m && lo + m <= |embeddings| && shard == embeddings[lo..lo + m]
    requires token < |embeddings| && owner * m <= token < owner * m + m
    requires forall o :: 0 <= o < |embeddings| ==> |embeddings[o]| == width
    ensures var row := MaskedRow(shard, lo, token);
            && |row| == width
            && forall j :: 0 <= j < width ==> row[j] == if r == owner then embeddings[token][j] else 0.0
  {
    hide MaskedRow;
    OwnsOne(m, token, owner, r);
    MaskedRowFrom(embeddings, shard, lo, width, token);
  }

  /** One rank contributes `row`, every other rank zeros: the sum is `row`. */
  lemma OneRowSum(parts: seq<Vec>, owner: nat, row: Vec)
    requires owner < |parts|
    requires forall r :: 0 <= r < |parts| ==>
               |parts[r]| == |row| && forall j :: 0 <= j < |row| ==> parts[r][j] == if r == owner then row[j] else 0.0
    ensures RankSum(parts, |row|) == row
  {
    forall j | 0 <= j < |row| ensures RankSum(parts, |row|)[j] == row[j] {
      OneOwner(Column(parts, j), owner, |parts|);
    }
  }

  /** The masked rows of all ranks add up to the token's embedding. */
  lemma MaskedRowsSum(embeddings: Matrix, tp: nat, m: nat, width: nat, token: nat, parts: seq<Vec>)
    requires tp > 0 && m > 0 && |embeddings| == tp * m && token < tp * m
    requires forall o :: 0 <= o < |embeddings| ==> |embeddings[o]| == width
    requires |parts| == tp && forall r :: 0 <= r < tp ==>
               |Rows(embeddings, tp, r)| == m && parts[r] == MaskedRow(Rows(embeddings, tp, r), r * m, token)
    ensures forall r :: 0 <= r < tp ==> |parts[r]| == width
    ensures RankSum(parts, width) == embeddings[token]
  {
    hide MaskedRow, Rows, RankSum;
    var owner, at := IndexOf(token, tp, m);
    forall r | 0 <= r < tp
      ensures |parts[r]| == width
      ensures forall j :: 0 <= j < width ==> parts[r][j] == if r == owner then embeddings[token][j] else 0.0
    {
      RowsFrom(embeddings, tp, m, r, r * m);
      MaskedRowIs(embeddings, Rows(embeddings, tp, r), m, width, owner, token, r, r * m);
    }
    OneRowSum(parts, owner, embeddings[token]);
  }

  lemma OwnsOne(m: nat, token: nat, owner: nat, r: nat)
    requires owner * m <= token < owner * m + m
    ensures r * m <= token < r * m + m <==> r == owner
  {
    if r < owner {
      MulLe(r + 1, owner, m);
      MulSucc(r, m);
    } else if owner < r {
      MulLe(owner + 1, r, m);
      MulSucc(owner, m);
    }
  }

  // ---- vocabulary-parallel head ----

  lemma {:induction false} JoinPieces<X>(x: seq<X>, tp: nat, n: nat, parts: seq<seq<X>>)
    requires tp * n <= |x| && |parts| == tp && forall r :: 0 <= r < tp ==> parts[r] == Piece(x, r, n)
    ensures Join(parts) == x[..tp * n]
  {
    if tp > 0 {
      MulSucc(tp - 1, n);
      JoinPieces(x, tp - 1, n, parts[..tp - 1]);
      assert parts == parts[..tp - 1] + [parts[tp - 1]];
      JoinSplit(parts[..tp - 1], [parts[tp - 1]]);
      assert Join([parts[tp - 1]]) == parts[tp - 1] + Join([]) == parts[tp - 1];
    }
  }

  /** Gathering the local logits in rank order gives the full logits. */
  lemma GatheredLogits(head: Matrix, y: Vec, tp: nat, m: nat, parts: seq<Vec>)
    requires tp > 0 && |head| == tp * m && |parts| == tp
    requires forall r :: 0 <= r < tp ==> parts[r] == Linear(Rows(head, tp, r), y)
    ensures Join(parts) == Linear(head, y)
  {
    forall r | 0 <= r < tp ensures parts[r] == Piece(Linear(head, y), r, m) {
      RowsAre(head, tp, m, r);
      LinearOfPiece(head, y, r, m);
    }
    JoinPieces(Linear(head, y), tp, m, parts);
  }
}
