/** The Llama forward pass over exact reals.

Activations are one vector per token position; a key or value row is one vector per head. RoPE
angles, the RMS factor, SiLU and exp are uninterpreted. A masked score has weight zero. `Shape`
carries head counts, so that the same attention serves the whole model and one tensor shard. */
module Llama {
  import opened Options
  import opened Arithmetic
  import opened Sequences
  import opened LinearAlgebra

  type Row = seq<Vec>

  datatype Kernels = Kernels(rms: Vec -> real, cos: (nat, nat) -> real, sin: (nat, nat) -> real,
                             silu: real -> real, exp: real -> real)

  /** Head counts, head width, and the factor 1/sqrt(head width). */
  datatype Shape = Shape(queryHeads: nat, kvHeads: nat, headDim: nat, scale: real)

  datatype Block = Block(inputNorm: Vec, q: Matrix, k: Matrix, v: Matrix, o: Matrix,
                         postNorm: Vec, gate: Matrix, up: Matrix, down: Matrix)

  datatype Model = Model(embeddings: Matrix, blocks: seq<Block>, finalNorm: Vec, head: Matrix)

  /** The populated prefix of one layer's cache: one key row and one value row per position. */
  datatype LayerCache = LayerCache(keys: seq<Row>, values: seq<Row>)

  datatype Cache = Cache(layers: seq<LayerCache>, capacity: nat)

  datatype ForwardError = EmptyInput | PositionMismatch | CacheCapacityExceeded | UnknownToken | LayerMismatch | CacheShapeDiffers

  // ---- per-position kernels ----

  function Norm(kern: Kernels, weight: Vec, x: Vec): (y: Vec)
    ensures |y| == Min(|weight|, |x|)
  {
    Map(v => kern.rms(x) * v, Times(weight, x))
  }

  /** Rotates the two halves of one head vector by the angles of position `p`. */
  function Rope(kern: Kernels, x: Vec, p: nat): (y: Vec)
    ensures |y| == |x|
  {
    var half := |x| / 2;
    seq(|x|, i requires 0 <= i < |x| =>
      if i < half then x[i] * kern.cos(p, i) - x[i + half] * kern.sin(p, i)
      else if i < 2 * half then x[i] * kern.cos(p, i - half) + x[i - half] * kern.sin(p, i - half)
      else x[i])
  }

  /** `reshape` of a feature vector into `n` heads of width `d`. */
  function Heads(flat: Vec, n: nat, d: nat): (heads: Row)
    ensures |heads| == n
  {
    seq(n, h requires 0 <= h < n => Piece(flat, h, d))
  }

  function RopeHeads(kern: Kernels, heads: Row, p: nat): (roped: Row)
    ensures |roped| == |heads|
  {
    seq(|heads|, h requires 0 <= h < |heads| => Rope(kern, heads[h], p))
  }

  function QueryRow(kern: Kernels, s: Shape, b: Block, x: Vec, p: nat): Row {
    RopeHeads(kern, Heads(Linear(b.q, x), s.queryHeads, s.headDim), p)
  }

  function KeyRow(kern: Kernels, s: Shape, b: Block, x: Vec, p: nat): Row {
    RopeHeads(kern, Heads(Linear(b.k, x), s.kvHeads, s.headDim), p)
  }

  function ValueRow(s: Shape, b: Block, x: Vec): Row {
    Heads(Linear(b.v, x), s.kvHeads, s.headDim)
  }

  /** `repeat_kv`: every compact head expanded to `repetitions` copies, and the copies put side by side. */
  function RepeatKv(row: Row, repetitions: nat): (repeated: Row) {
    if repetitions == 1 then row else Join(Expanded(row, repetitions))
  }

  function Expanded(row: Row, repetitions: nat): (groups: seq<Row>)
    ensures |groups| == |row| && forall g :: 0 <= g < |groups| ==> |groups[g]| == repetitions
  {
    seq(|row|, g requires 0 <= g < |row| => seq(repetitions, _ => row[g]))
  }

  /** The key or value head that query head `h` meets after the repetition. */
  function KvHead(row: Row, h: nat, repetitions: nat): Vec {
    var repeated := RepeatKv(row, repetitions);
    if h < |repeated| then repeated[h] else []
  }

  function Repetitions(s: Shape): nat {
    if s.kvHeads == 0 then 0 else s.queryHeads / s.kvHeads
  }

  // ---- attention ----

  function Scaled(score: real, scale: real): real { score * scale }

  /** exp of the scaled score of one key row for head `h`. */
  function Score(kern: Kernels, s: Shape, h: nat, q: Vec, key: Row): real {
    kern.exp(Scaled(Dot(q, KvHead(key, h, Repetitions(s))), s.scale))
  }

  /** Softmax numerators of head `h`: the score, and zero from key `limit` on. */
  function Weights(kern: Kernels, s: Shape, h: nat, q: Vec, keys: seq<Row>, limit: nat): (ws: seq<real>)
    ensures |ws| == |keys|
  {
    seq(|keys|, t requires 0 <= t < |keys| =>
      if t < limit then Score(kern, s, h, q, keys[t]) else 0.0)
  }

  function Total(ws: seq<real>): real {
    if ws == [] then 0.0 else Total(ws[..|ws| - 1]) + ws[|ws| - 1]
  }

  function Softmax(ws: seq<real>): (ps: seq<real>)
    ensures |ps| == |ws|
  {
    seq(|ws|, t requires 0 <= t < |ws| => if Total(ws) == 0.0 then 0.0 else ws[t] / Total(ws))
  }

  function Entry(v: Vec, i: nat): real { if i < |v| then v[i] else 0.0 }

  /** Feature `i` of the mixture of the value vectors with weights `ps`. */
  function MixAt(ps: seq<real>, vs: seq<Vec>, i: nat): real
    requires |ps| == |vs|
  {
    if ps == [] then 0.0 else MixAt(ps[..|ps| - 1], vs[..|vs| - 1], i) + ps[|ps| - 1] * Entry(vs[|vs| - 1], i)
  }

  function HeadValues(s: Shape, h: nat, values: seq<Row>): (vs: seq<Vec>)
    ensures |vs| == |values|
  {
    seq(|values|, t requires 0 <= t < |values| => KvHead(values[t], h, Repetitions(s)))
  }

  function HeadOut(kern: Kernels, s: Shape, h: nat, q: Vec, keys: seq<Row>, values: seq<Row>, limit: nat): (y: Vec)
    requires |keys| == |values|
    ensures |y| == s.headDim
  {
    var ps := Softmax(Weights(kern, s, h, q, keys, limit));
    seq(s.headDim, i requires 0 <= i < s.headDim => MixAt(ps, HeadValues(s, h, values), i))
  }

  function AttendRow(kern: Kernels, s: Shape, q: Row, keys: seq<Row>, values: seq<Row>, limit: nat): (outs: Row)
    requires |keys| == |values|
    ensures |outs| == |q| && forall h :: 0 <= h < |q| ==> |outs[h]| == s.headDim
  {
    seq(|q|, h requires 0 <= h < |q| => HeadOut(kern, s, h, q[h], keys, values, limit))
  }

  /** The joined head outputs of one position. */
  function AttendAt(kern: Kernels, s: Shape, b: Block, x: Vec, p: nat, keys: seq<Row>, values: seq<Row>, limit: nat): Vec
    requires |keys| == |values|
  {
    Join(AttendRow(kern, s, QueryRow(kern, s, b, x, p), keys, values, limit))
  }

  ghost predicate WellFormedLayer(c: LayerCache, length: nat) {
    |c.keys| == |c.values| == length
  }

  /** The cache after the key and value rows of `xs` are appended at `position`. */
  function AppendRows(kern: Kernels, s: Shape, b: Block, xs: seq<Vec>, position: nat, c: LayerCache): (c': LayerCache)
    ensures |c'.keys| == |c.keys| + |xs| && |c'.values| == |c.values| + |xs|
  {
    LayerCache(c.keys + seq(|xs|, i requires 0 <= i < |xs| => KeyRow(kern, s, b, xs[i], position + i)),
               c.values + seq(|xs|, i requires 0 <= i < |xs| => ValueRow(s, b, xs[i])))
  }

  /** How many keys query `i` of a forward of `sequence` tokens may see: all of them when there is a
  single query and the mask is skipped, those up to its own position otherwise. */
  function Visible(sequence: nat, position: nat, i: nat, keys: nat): nat {
    if sequence > 1 then position + i + 1 else keys
  }

  /** Head outputs for all positions of a forward, before the output projection. */
  function Attend(kern: Kernels, s: Shape, b: Block, xs: seq<Vec>, position: nat, c: LayerCache): (locals: seq<Vec>)
    requires |c.keys| == |c.values|
    ensures |locals| == |xs|
  {
    var c' := AppendRows(kern, s, b, xs, position, c);
    seq(|xs|, i requires 0 <= i < |xs| =>
      AttendAt(kern, s, b, xs[i], position + i, c'.keys, c'.values, Visible(|xs|, position, i, |c'.keys|)))
  }

  // ---- blocks ----

  /** The SwiGLU features before the down projection. */
  function Gated(kern: Kernels, b: Block, x: Vec): Vec {
    Times(Map(kern.silu, Linear(b.gate, x)), Linear(b.up, x))
  }

  function NormAll(kern: Kernels, weight: Vec, xs: seq<Vec>): (ys: seq<Vec>)
    ensures |ys| == |xs|
  {
    seq(|xs|, i requires 0 <= i < |xs| => Norm(kern, weight, xs[i]))
  }

  /** Residual stream after attention, given the joined head outputs. */
  function AfterAttention(b: Block, x: Vec, local: Vec): Vec {
    Add(x, Linear(b.o, local))
  }

  /** Residual stream after the feed-forward network. */
  function AfterMlp(kern: Kernels, b: Block, hidden: Vec): Vec {
    Add(hidden, Linear(b.down, Gated(kern, b, Norm(kern, b.postNorm, hidden))))
  }

  /** What a block puts out, given the joined head outputs of every position. */
  function BlockOuts(kern: Kernels, b: Block, xs: seq<Vec>, locals: seq<Vec>): (ys: seq<Vec>)
    requires |locals| == |xs|
    ensures |ys| == |xs|
  {
    seq(|xs|, i requires 0 <= i < |xs| => AfterMlp(kern, b, AfterAttention(b, xs[i], locals[i])))
  }

  function RunBlock(kern: Kernels, s: Shape, b: Block, xs: seq<Vec>, position: nat, c: LayerCache): (ys: seq<Vec>)
    requires |c.keys| == |c.values|
    ensures |ys| == |xs|
  {
    BlockOuts(kern, b, xs, Attend(kern, s, b, NormAll(kern, b.inputNorm, xs), position, c))
  }

  function BlockCache(kern: Kernels, s: Shape, b: Block, xs: seq<Vec>, position: nat, c: LayerCache): LayerCache {
    AppendRows(kern, s, b, NormAll(kern, b.inputNorm, xs), position, c)
  }

  predicate Aligned(caches: seq<LayerCache>, length: nat) {
    forall l :: 0 <= l < |caches| ==> |caches[l].keys| == |caches[l].values| == length
  }

  function RunBlocks(kern: Kernels, s: Shape, blocks: seq<Block>, xs: seq<Vec>, position: nat, caches: seq<LayerCache>): (ys: seq<Vec>)
    requires |blocks| == |caches| && Aligned(caches, position)
    ensures |ys| == |xs|
  {
    if blocks == [] then xs
    else RunBlocks(kern, s, blocks[1..], RunBlock(kern, s, blocks[0], xs, position, caches[0]), position, caches[1..])
  }

  function BlockCaches(kern: Kernels, s: Shape, blocks: seq<Block>, xs: seq<Vec>, position: nat, caches: seq<LayerCache>): (caches': seq<LayerCache>)
    requires |blocks| == |caches| && Aligned(caches, position)
    ensures |caches'| == |caches| && Aligned(caches', position + |xs|)
  {
    if blocks == [] then []
    else [BlockCache(kern, s, blocks[0], xs, position, caches[0])]
         + BlockCaches(kern, s, blocks[1..], RunBlock(kern, s, blocks[0], xs, position, caches[0]), position, caches[1..])
  }

  // ---- the model ----

  /** Populated positions, read off the first layer as `KvCache::len` does. */
  function Length(c: Cache): nat {
    if c.layers == [] then 0 else |c.layers[0].keys|
  }

  /** Every layer has cached the same positions, within the capacity. */
  predicate ValidCache(m: Model, c: Cache) {
    |c.layers| == |m.blocks| && Aligned(c.layers, Length(c)) && Length(c) <= c.capacity
  }

  predicate Known(m: Model, tokens: seq<nat>) {
    forall i :: 0 <= i < |tokens| ==> tokens[i] < |m.embeddings|
  }

  function Embed(m: Model, tokens: seq<nat>): (xs: seq<Vec>)
    requires Known(m, tokens)
    ensures |xs| == |tokens|
  {
    seq(|tokens|, i requires 0 <= i < |tokens| => m.embeddings[tokens[i]])
  }

  function Finish(kern: Kernels, m: Model, hidden: seq<Vec>): Vec
    requires hidden != []
  {
    Linear(m.head, Norm(kern, m.finalNorm, hidden[|hidden| - 1]))
  }

  /** The checks of a forward call, in the order in which the code makes them. */
  function ForwardCheck(m: Model, tokens: seq<nat>, position: nat, c: Cache): Option<ForwardError> {
    if tokens == [] then Some(EmptyInput)
    else if position != Length(c) then Some(PositionMismatch)
    else if position + |tokens| > c.capacity then Some(CacheCapacityExceeded)
    else if !Known(m, tokens) then Some(UnknownToken)
    else None
  }

  /** Logits of the last position, and the cache with all positions appended. */
  function Forward(kern: Kernels, s: Shape, m: Model, tokens: seq<nat>, position: nat, c: Cache): Result<(Vec, Cache), ForwardError>
    requires ValidCache(m, c)
  {
    var error := ForwardCheck(m, tokens, position, c);
    if error.Some? then Err(error.value)
    else
      var xs := Embed(m, tokens);
      Ok((Finish(kern, m, RunBlocks(kern, s, m.blocks, xs, position, c.layers)),
          c.(layers := BlockCaches(kern, s, m.blocks, xs, position, c.layers))))
  }

  /** A forward succeeds exactly for at least one token, all known, at the cache's own position, with room for all of
  them; which error it reports follows this order: no token, position, room, unknown token. */
  lemma ForwardExact(kern: Kernels, s: Shape, m: Model, tokens: seq<nat>, position: nat, c: Cache)
    requires ValidCache(m, c)
    ensures var result := Forward(kern, s, m, tokens, position, c);
            var fits := position + |tokens| <= c.capacity;
            && (result.Ok? <==> |tokens| > 0 && position == Length(c) && fits && forall i :: 0 <= i < |tokens| ==> tokens[i] < |m.embeddings|)
            && (result == Err(EmptyInput) <==> |tokens| == 0)
            && (result == Err(PositionMismatch) <==> |tokens| > 0 && position != Length(c))
            && (result == Err(CacheCapacityExceeded) <==> |tokens| > 0 && position == Length(c) && !fits)
  {
    hide RunBlocks, BlockCaches, Finish, Embed;
  }

  // ---- facts about the pieces ----

  lemma RepeatKvLength(row: Row, repetitions: nat)
    ensures |RepeatKv(row, repetitions)| == |row| * repetitions
  {
    if repetitions != 1 {
      JoinLength(Expanded(row, repetitions), repetitions);
    }
  }

  lemma CopyAt(row: Row, repetitions: nat, g: nat, i: nat, h: nat)
    requires g < |row| && i < repetitions && h == g * repetitions + i
    ensures h < |RepeatKv(row, repetitions)| && RepeatKv(row, repetitions)[h] == row[g]
  {
    if repetitions != 1 {
      JoinAt(Expanded(row, repetitions), repetitions, g, i);
    }
  }

  lemma GroupOf(h: nat, repetitions: nat, groups: nat) returns (g: nat, i: nat)
    requires repetitions > 0
    ensures g == h / repetitions && i < repetitions && h == g * repetitions + i
    ensures g < groups <==> h < groups * repetitions
  {
    g, i := h / repetitions, h % repetitions;
    if g < groups {
      MulLe(g + 1, groups, repetitions);
      MulSucc(g, repetitions);
    } else {
      MulLe(groups, g, repetitions);
    }
  }

  /** Query head `h` meets compact head `h / repetitions`. */
  lemma RepeatKvAt(row: Row, repetitions: nat, h: nat)
    requires repetitions > 0
    ensures KvHead(row, h, repetitions) == if h / repetitions < |row| then row[h / repetitions] else []
  {
    hide RepeatKv;
    RepeatKvLength(row, repetitions);
    var g, i := GroupOf(h, repetitions, |row|);
    if g < |row| {
      CopyAt(row, repetitions, g, i, h);
    }
  }

  /** With a positive exp the softmax denominator is positive as soon as one key is visible. */
  lemma {:induction false} TotalPositive(kern: Kernels, s: Shape, h: nat, q: Vec, keys: seq<Row>, limit: nat)
    requires forall x :: kern.exp(x) > 0.0
    ensures Total(Weights(kern, s, h, q, keys, limit)) >= 0.0
    ensures keys != [] && limit > 0 ==> Total(Weights(kern, s, h, q, keys, limit)) > 0.0
  {
    var ws := Weights(kern, s, h, q, keys, limit);
    if keys != [] {
      var shorter := keys[..|keys| - 1];
      TotalPositive(kern, s, h, q, shorter, limit);
      assert forall key :: Score(kern, s, h, q, key) > 0.0;
      hide Score;
      assert forall t :: 0 <= t < |shorter| ==> ws[t] == Weights(kern, s, h, q, shorter, limit)[t];
      assert ws[..|ws| - 1] == Weights(kern, s, h, q, shorter, limit);
    }
  }
}
