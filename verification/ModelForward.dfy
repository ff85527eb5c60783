/** The forward pass as it runs: the mask built entry by entry, and the block loop over a cache that
is appended in place. */
module ModelForward {
  import opened Options
  import opened Arithmetic
  import opened Sequences
  import opened LinearAlgebra
  import opened Llama
  import opened ChunkedForward
  import opened Generation
  import opened KvCaches
  import opened BlockFormula

  // ---- the causal mask ----

  /** Row `query` of the mask: which keys it may not see. */
  function MaskRow(position: nat, query: nat, keys: nat): (row: seq<bool>)
    ensures |row| == keys
  {
    seq(keys, t => t > position + query)
  }

  function MaskRows(position: nat, queries: nat, keys: nat): (rows: seq<seq<bool>>)
    ensures |rows| == queries
  {
    seq(queries, (q: nat) => MaskRow(position, q, keys))
  }

  /** `apply_causal_mask`: one flag per query and key, row by row. */
  method CausalMask(position: nat, sequence: nat) returns (mask: seq<bool>)
    ensures mask == Join(MaskRows(position, sequence, position + sequence))
  {
    var keys := position + sequence;
    mask := [];
    for query := 0 to sequence
      invariant mask == Join(MaskRows(position, query, keys))
    {
      ghost var before := mask;
      for key := 0 to keys
        invariant mask == before + MaskRow(position, query, keys)[..key]
      {
        mask := mask + [key > position + query];
      }
      ghost var row := MaskRow(position, query, keys);
      assert row[..keys] == row;
      assert MaskRows(position, query + 1, keys) == MaskRows(position, query, keys) + [row];
      JoinSplit(MaskRows(position, query, keys), [row]);
      assert Join([row]) == row + Join([]) == row;
    }
  }

  /** The flags are the limit of `Attend`: query `q` of a multi-token forward sees exactly the keys that
  are not flagged in its row. */
  lemma MaskIsVisible(position: nat, sequence: nat, q: nat, t: nat)
    requires sequence > 1 && q < sequence && t < position + sequence
    ensures var keys, mask := position + sequence, Join(MaskRows(position, sequence, position + sequence));
            q * keys + t < |mask| && (mask[q * keys + t] <==> t >= Visible(sequence, position, q, keys))
  {
    JoinAt(MaskRows(position, sequence, position + sequence), position + sequence, q, t);
  }

  // ---- blocks over the cache ----

  /** The key and value projections have the shapes that the loader demands. */
  predicate KvShaped(s: Shape, b: Block) {
    |b.k| == |b.v| == s.kvHeads * s.headDim
  }

  predicate AllKvShaped(s: Shape, blocks: seq<Block>) {
    forall l :: 0 <= l < |blocks| ==> KvShaped(s, blocks[l])
  }

  /** The cache was allocated for these heads. */
  predicate MadeFor(cache: KvCache, s: Shape) {
    cache.heads == s.kvHeads && cache.width == s.headDim
  }

  lemma HeadsShaped(flat: Vec, n: nat, d: nat)
    requires |flat| == n * d
    ensures RowShaped(Heads(flat, n, d), n, d)
  {
    hide Piece;
    forall h | 0 <= h < n ensures |Heads(flat, n, d)[h]| == d {
      PieceFits(h, n, d);
    }
  }

  /** The key and the value row of a position have one shape, that of the cache's heads. */
  lemma RowsShaped(kern: Kernels, s: Shape, b: Block, x: Vec, p: nat)
    requires KvShaped(s, b)
    ensures RowShaped(KeyRow(kern, s, b, x, p), s.kvHeads, s.headDim) && RowShaped(ValueRow(s, b, x), s.kvHeads, s.headDim)
  {
    hide Heads;
    HeadsShaped(Linear(b.k, x), s.kvHeads, s.headDim);
    HeadsShaped(Linear(b.v, x), s.kvHeads, s.headDim);
  }

  /** The two projections of a block, reshaped into heads, and the keys rotated. */
  method ProjectKv(kern: Kernels, s: Shape, b: Block, ns: seq<Vec>, position: nat) returns (keys: Chunk, values: Chunk)
    requires KvShaped(s, b)
    ensures WellShaped(keys) && WellShaped(values) && SameDims(keys, values) && keys.heads == s.kvHeads && keys.width == s.headDim
    ensures |keys.rows| == |ns| && forall i :: 0 <= i < |ns| ==> keys.rows[i] == KeyRow(kern, s, b, ns[i], position + i) && values.rows[i] == ValueRow(s, b, ns[i])
  {
    forall i | 0 <= i < |ns|
      ensures RowShaped(KeyRow(kern, s, b, ns[i], position + i), s.kvHeads, s.headDim) && RowShaped(ValueRow(s, b, ns[i]), s.kvHeads, s.headDim)
    {
      RowsShaped(kern, s, b, ns[i], position + i);
    }
    hide KeyRow, ValueRow;
    keys := Chunk(s.kvHeads, s.headDim, seq(|ns|, i requires 0 <= i < |ns| => KeyRow(kern, s, b, ns[i], position + i)));
    values := Chunk(s.kvHeads, s.headDim, seq(|ns|, i requires 0 <= i < |ns| => ValueRow(s, b, ns[i])));
  }

  /** Outputs and cached rows are those of the formulas, for weights and rows that fit together. */
  ghost predicate ByFormulas(a: Pass, outs: seq<Vec>, after: LayerCache) {
    Fits(a, |a.b.inputNorm|, |a.b.gate|) ==> outs == Outs(a) && after == LayerCache(Keys(a), Values(a))
  }

  lemma BlockByFormulas(a: Pass)
    requires |a.c.keys| == |a.c.values|
    ensures ByFormulas(a, RunBlock(a.kern, a.s, a.b, a.xs, a.position, a.c), BlockCache(a.kern, a.s, a.b, a.xs, a.position, a.c))
  {
    hide Fits, RunBlock, BlockCache, Outs, Keys, Values;
    if Fits(a, |a.b.inputNorm|, |a.b.gate|) {
      BlockIs(a, |a.b.inputNorm|, |a.b.gate|);
    }
  }

  /** One block: append the new rows in place, attend over the populated prefix, then the two residual
  additions. Keys and values of a block cannot differ in shape; what can fail is a full cache, or one
  that was made for other heads. */
  method BlockForward(kern: Kernels, s: Shape, b: Block, xs: seq<Vec>, position: nat, layer: nat, cache: KvCache) returns (result: Result<seq<Vec>, CacheError>)
    requires cache.Valid() && layer < |cache.layers| && KvShaped(s, b)
    modifies cache.Repr()
    ensures cache.Valid()
    ensures result.Ok? <==> |old(cache.Contents()).layers[layer].keys| + |xs| <= cache.capacity && MadeFor(cache, s)
    ensures var before := old(cache.Contents());
            && (result.Ok? ==>
                  && result.value == RunBlock(kern, s, b, xs, position, before.layers[layer])
                  && cache.Contents() == before.(layers := before.layers[layer := BlockCache(kern, s, b, xs, position, before.layers[layer])]))
            && (result.Err? ==>
                  && cache.Contents() == before
                  && result.error == if |before.layers[layer].keys| + |xs| > cache.capacity then CapacityExceeded else WrongShape)
    ensures result.Ok? ==> ByFormulas(Pass(kern, s, b, xs, position, old(cache.Contents()).layers[layer]), result.value, cache.Contents().layers[layer])
  {
    hide KeyRow, ValueRow, AttendAt, NormAll, BlockOuts, ByFormulas;
    BlockByFormulas(Pass(kern, s, b, xs, position, cache.Contents().layers[layer]));
    var ns := NormAll(kern, b.inputNorm, xs);
    var keys, values := ProjectKv(kern, s, b, ns, position);
    ghost var before := cache.Contents().layers[layer];
    var prefix := cache.Append(layer, keys, values);
    if prefix.Err? {
      return Err(prefix.error);
    }
    var c := prefix.value;
    assert c == AppendRows(kern, s, b, ns, position, before);
    var locals := seq(|ns|, i requires 0 <= i < |ns| =>
      AttendAt(kern, s, b, ns[i], position + i, c.keys, c.values, Visible(|ns|, position, i, |c.keys|)));
    assert locals == Attend(kern, s, b, ns, position, before);
    return Ok(BlockOuts(kern, b, xs, locals));
  }

  lemma OneMoreBlock(kern: Kernels, s: Shape, blocks: seq<Block>, xs: seq<Vec>, position: nat, caches: seq<LayerCache>, layer: nat)
    requires |blocks| == |caches| && layer < |blocks| && Aligned(caches[layer..], position)
    ensures Aligned(caches[layer + 1..], position) && |caches[layer].keys| == |caches[layer].values| == position
    ensures var ys := RunBlock(kern, s, blocks[layer], xs, position, caches[layer]);
            && RunBlocks(kern, s, blocks[layer..], xs, position, caches[layer..]) == RunBlocks(kern, s, blocks[layer + 1..], ys, position, caches[layer + 1..])
            && BlockCaches(kern, s, blocks[layer..], xs, position, caches[layer..])
               == [BlockCache(kern, s, blocks[layer], xs, position, caches[layer])]
                  + BlockCaches(kern, s, blocks[layer + 1..], ys, position, caches[layer + 1..])
  {
    hide RunBlock, BlockCache;
    assert blocks[layer..][1..] == blocks[layer + 1..] && caches[layer..][1..] == caches[layer + 1..];
    assert caches[layer..][0] == caches[layer];
    var tail := caches[layer + 1..];
    forall l | 0 <= l < |tail| ensures |tail[l].keys| == |tail[l].values| == position {
      assert tail[l] == caches[layer..][l + 1];
    }
  }

  /** After `layer` blocks: what is left to run from here gives what the whole loop gives. */
  ghost predicate Halfway(kern: Kernels, s: Shape, blocks: seq<Block>, xs: seq<Vec>, position: nat, before: seq<LayerCache>,
                          layer: nat, hidden: seq<Vec>, now: seq<LayerCache>)
    requires |blocks| == |before| && layer <= |blocks| && Aligned(before[layer..], position) && Aligned(before, position)
  {
    && |now| == |before| && now[layer..] == before[layer..]
    && RunBlocks(kern, s, blocks[layer..], hidden, position, before[layer..]) == RunBlocks(kern, s, blocks, xs, position, before)
    && now[..layer] + BlockCaches(kern, s, blocks[layer..], hidden, position, before[layer..]) == BlockCaches(kern, s, blocks, xs, position, before)
  }

  lemma BlockStep(kern: Kernels, s: Shape, blocks: seq<Block>, xs: seq<Vec>, position: nat, before: seq<LayerCache>,
                  layer: nat, hidden: seq<Vec>, now: seq<LayerCache>)
    requires |blocks| == |before| && layer < |blocks| && Aligned(before[layer..], position) && Aligned(before, position)
    requires Halfway(kern, s, blocks, xs, position, before, layer, hidden, now)
    ensures now[layer] == before[layer] && |before[layer].keys| == |before[layer].values| == position && Aligned(before[layer + 1..], position)
    ensures var next := now[layer := BlockCache(kern, s, blocks[layer], hidden, position, before[layer])];
            Halfway(kern, s, blocks, xs, position, before, layer + 1, RunBlock(kern, s, blocks[layer], hidden, position, before[layer]), next)
  {
    hide RunBlock, BlockCache, RunBlocks, BlockCaches, Aligned;
    OneMoreBlock(kern, s, blocks, hidden, position, before, layer);
    assert now[layer] == now[layer..][0] == before[layer..][0] == before[layer];
    var next := now[layer := BlockCache(kern, s, blocks[layer], hidden, position, before[layer])];
    assert next[layer + 1..] == now[layer..][1..] == before[layer..][1..] == before[layer + 1..];
    assert next[..layer + 1] == now[..layer] + [next[layer]];
  }

  /** The block loop of `Llama::forward` and `LlamaStage::forward_hidden`. On a cache made for other heads the
  first block fails, and nothing has been written. */
  method ForwardBlocks(kern: Kernels, s: Shape, blocks: seq<Block>, xs: seq<Vec>, position: nat, cache: KvCache) returns (result: Result<seq<Vec>, CacheError>)
    requires cache.Valid() && |blocks| == |cache.layers| && Aligned(cache.Contents().layers, position) && position + |xs| <= cache.capacity
    requires AllKvShaped(s, blocks)
    modifies cache.Repr()
    ensures cache.Valid()
    ensures MadeFor(cache, s) || blocks == [] ==>
              && result == Ok(RunBlocks(kern, s, blocks, xs, position, old(cache.Contents()).layers))
              && cache.Contents() == old(cache.Contents()).(layers := BlockCaches(kern, s, blocks, xs, position, old(cache.Contents()).layers))
    ensures !MadeFor(cache, s) && blocks != [] ==> result == Err(WrongShape) && cache.Contents() == old(cache.Contents())
  {
    hide RunBlock, BlockCache, RunBlocks, BlockCaches, Aligned, KvShaped, MadeFor;
    var hidden := xs;
    ghost var before := cache.Contents().layers;
    assert blocks[0..] == blocks && before[0..] == before;
    for layer := 0 to |blocks|
      invariant cache.Valid() && |hidden| == |xs| && Aligned(before[layer..], position)
      invariant layer > 0 ==> MadeFor(cache, s)
      invariant Halfway(kern, s, blocks, xs, position, before, layer, hidden, cache.Contents().layers)
    {
      ghost var now := cache.Contents().layers;
      BlockStep(kern, s, blocks, xs, position, before, layer, hidden, now);
      var outs := BlockForward(kern, s, blocks[layer], hidden, position, layer, cache);
      if outs.Err? {
        assert layer == 0 && now == now[0..] == before[0..] == before;
        return Err(outs.error);
      }
      hidden := outs.value;
    }
    NoBlocksLeft(kern, s, hidden, position);
    assert blocks[|blocks|..] == [] && before[|blocks|..] == [];
    assert cache.Contents().layers[..|blocks|] == cache.Contents().layers;
    return Ok(hidden);
  }

  lemma NoBlocksLeft(kern: Kernels, s: Shape, xs: seq<Vec>, position: nat)
    ensures Aligned([], position)
    ensures RunBlocks(kern, s, [], xs, position, []) == xs && BlockCaches(kern, s, [], xs, position, []) == []
  {}

  /** The logits are the formulas' for the embedding rows of the tokens. */
  ghost predicate LogitsAreFormulas(kern: Kernels, s: Shape, m: Model, tokens: seq<nat>, position: nat, caches: seq<LayerCache>, logits: Vec)
    requires |m.blocks| == |caches|
  {
    var xs := seq(|tokens|, (p: nat) => if p < |tokens| then Line(m.embeddings, tokens[p]) else []);
    var hidden := HiddenAfter(kern, s, m.blocks, xs, position, caches);
    hidden != [] && |logits| == |m.head| && forall v :: 0 <= v < |m.head| ==> logits[v] == LogitAt(kern, m, hidden[|hidden| - 1], v)
  }

  lemma ForwardIsFormulas(kern: Kernels, s: Shape, m: Model, tokens: seq<nat>, c: Cache)
    requires ValidCache(m, c) && ModelFits(s, m, |m.finalNorm|) && CachesFit(s, c.layers, Length(c))
    requires Forward(kern, s, m, tokens, Length(c), c).Ok?
    ensures LogitsAreFormulas(kern, s, m, tokens, Length(c), c.layers, Forward(kern, s, m, tokens, Length(c), c).value.0)
  {
    hide ModelFits, CachesFit, Forward, ValidCache, LogitAt;
    ForwardIs(kern, s, m, |m.finalNorm|, tokens, c);
  }

  /** `Llama::forward`: the checks, the embedding, the block loop, and the logits of the last position. A
  refused call leaves the cache alone. */
  method RunForward(kern: Kernels, s: Shape, m: Model, tokens: seq<nat>, position: nat, cache: KvCache) returns (result: Result<Vec, ForwardError>)
    requires cache.Valid() && ValidCache(m, cache.Contents()) && AllKvShaped(s, m.blocks)
    modifies cache.Repr()
    ensures cache.Valid()
    ensures var expected := Forward(kern, s, m, tokens, position, old(cache.Contents()));
            if expected.Err? then result == Err(expected.error) && cache.Contents() == old(cache.Contents())
            else if MadeFor(cache, s) || m.blocks == [] then result == Ok(expected.value.0) && cache.Contents() == expected.value.1
            else result == Err(CacheShapeDiffers) && cache.Contents() == old(cache.Contents())
    ensures result.Ok? && ModelFits(s, m, |m.finalNorm|) && CachesFit(s, old(cache.Contents()).layers, position) ==>
              LogitsAreFormulas(kern, s, m, tokens, position, old(cache.Contents()).layers, result.value)
  {
    hide RunBlocks, BlockCaches, Finish, Embed, KvShaped, LogitsAreFormulas, ModelFits, CachesFit;
    ghost var before := cache.Contents();
    if Forward(kern, s, m, tokens, position, before).Ok? && ModelFits(s, m, |m.finalNorm|) && CachesFit(s, before.layers, position) {
      ForwardIsFormulas(kern, s, m, tokens, before);
    }
    if tokens == [] {
      return Err(EmptyInput);
    }
    var populated := cache.Len();
    if position != populated {
      return Err(PositionMismatch);
    }
    if position + |tokens| > cache.capacity {
      return Err(ForwardError.CacheCapacityExceeded);
    }
    if !Known(m, tokens) {
      return Err(UnknownToken);
    }
    var hidden := ForwardBlocks(kern, s, m.blocks, Embed(m, tokens), position, cache);
    if hidden.Err? {
      return Err(CacheShapeDiffers);
    }
    return Ok(Finish(kern, m, hidden.value));
  }

  /** The `generate` loop over the cache object: prefill, first token, then one decode forward per further
  token. Tokens, stop reason and final cache are those of `Generate`. */
  method RunGenerate(e: Engine, q: Request, cache: KvCache) returns (result: Result<(seq<nat>, StopReason), ForwardError>)
    requires cache.Valid() && cache.Contents() == EmptyCache(e.model, CacheCapacity(q))
    requires MadeFor(cache, e.shape) && AllKvShaped(e.shape, e.model.blocks)
    modifies cache.Repr()
    ensures cache.Valid()
    ensures Generate(e, q).Ok? ==> result.Ok? && Generate(e, q) == Ok(Generated(result.value.0, result.value.1, cache.Contents()))
    ensures Generate(e, q).Err? ==> result == Err(Generate(e, q).error)
  {
    hide Forward, ValidCache, AllKvShaped;
    ForwardKeepsCache(e.kern, e.shape, e.model, q.prompt, cache.Contents());
    var logits := RunForward(e.kern, e.shape, e.model, q.prompt, 0, cache);
    if logits.Err? {
      return Err(logits.error);
    }
    var nextToken := e.pick(logits.value);
    if nextToken == q.eos {
      return Ok(([], Eos));
    }
    var generated := [nextToken];
    assert [] + [nextToken] == generated;
    while |generated| < q.effective
      invariant cache.Valid() && ValidCache(e.model, cache.Contents())
      invariant |generated| < q.effective ==> Greedy(e, q, [nextToken], cache.Contents(), generated) == Generate(e, q)
      invariant |generated| >= q.effective ==> Ok(Generated(generated, LimitReason(q), cache.Contents())) == Generate(e, q)
      decreases q.effective - |generated|
    {
      ForwardKeepsCache(e.kern, e.shape, e.model, [nextToken], cache.Contents());
      var position := cache.Len();
      logits := RunForward(e.kern, e.shape, e.model, [nextToken], position, cache);
      if logits.Err? {
        return Err(logits.error);
      }
      nextToken := e.pick(logits.value);
      if nextToken == q.eos {
        return Ok((generated, Eos));
      }
      generated := generated + [nextToken];
    }
    return Ok((generated, LimitReason(q)));
  }
}
