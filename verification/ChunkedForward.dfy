/** Feeding a token sequence in pieces through the KV cache computes what one forward computes. */
module ChunkedForward {
  import opened Options
  import opened LinearAlgebra
  import opened Sequences
  import opened Llama

  // ---- keys behind the limit do not matter ----

  lemma {:induction false} TotalOfZeros(ws: seq<real>, zs: seq<real>)
    requires forall t :: 0 <= t < |zs| ==> zs[t] == 0.0
    ensures Total(ws + zs) == Total(ws)
  {
    if zs == [] {
      assert ws + zs == ws;
    } else {
      assert (ws + zs)[..|ws + zs| - 1] == ws + zs[..|zs| - 1];
      TotalOfZeros(ws, zs[..|zs| - 1]);
    }
  }

  lemma {:induction false} MixOfZeros(ps: seq<real>, vs: seq<Vec>, zs: seq<real>, us: seq<Vec>, i: nat)
    requires |ps| == |vs| && |zs| == |us| && forall t :: 0 <= t < |zs| ==> zs[t] == 0.0
    ensures MixAt(ps + zs, vs + us, i) == MixAt(ps, vs, i)
  {
    if zs == [] {
      assert ps + zs == ps && vs + us == vs;
    } else {
      var n := |zs| - 1;
      assert (ps + zs)[..|ps + zs| - 1] == ps + zs[..n] && (vs + us)[..|vs + us| - 1] == vs + us[..n];
      MixOfZeros(ps, vs, zs[..n], us[..n], i);
    }
  }

  /** The keys from `limit` on get weight zero, so the head output is that of the keys before them. */
  lemma HeadIgnoresMasked(kern: Kernels, s: Shape, h: nat, q: Vec, keys: seq<Row>, values: seq<Row>,
                          moreKeys: seq<Row>, moreValues: seq<Row>, limit: nat)
    requires |keys| == |values| && |moreKeys| == |moreValues| && limit <= |keys|
    ensures HeadOut(kern, s, h, q, keys + moreKeys, values + moreValues, limit) == HeadOut(kern, s, h, q, keys, values, limit)
  {
    hide Score, KvHead;
    var ws := Weights(kern, s, h, q, keys, limit);
    var zs: seq<real> := seq(|moreKeys|, _ => 0.0);
    assert Weights(kern, s, h, q, keys + moreKeys, limit) == ws + zs;
    TotalOfZeros(ws, zs);
    assert Softmax(ws + zs) == Softmax(ws) + zs;
    var vs, us := HeadValues(s, h, values), HeadValues(s, h, moreValues);
    assert HeadValues(s, h, values + moreValues) == vs + us;
    forall i | 0 <= i < s.headDim ensures MixAt(Softmax(ws) + zs, vs + us, i) == MixAt(Softmax(ws), vs, i) {
      MixOfZeros(Softmax(ws), vs, zs, us, i);
    }
  }

  lemma AttendIgnoresMasked(kern: Kernels, s: Shape, b: Block, x: Vec, p: nat, keys: seq<Row>, values: seq<Row>,
                            moreKeys: seq<Row>, moreValues: seq<Row>, limit: nat)
    requires |keys| == |values| && |moreKeys| == |moreValues| && limit <= |keys|
    ensures AttendAt(kern, s, b, x, p, keys + moreKeys, values + moreValues, limit) == AttendAt(kern, s, b, x, p, keys, values, limit)
  {
    var q := QueryRow(kern, s, b, x, p);
    forall h | 0 <= h < |q|
      ensures HeadOut(kern, s, h, q[h], keys + moreKeys, values + moreValues, limit) == HeadOut(kern, s, h, q[h], keys, values, limit)
    {
      HeadIgnoresMasked(kern, s, h, q[h], keys, values, moreKeys, moreValues, limit);
    }
    assert AttendRow(kern, s, q, keys + moreKeys, values + moreValues, limit) == AttendRow(kern, s, q, keys, values, limit);
  }

  // ---- one block over two chunks ----

  lemma AppendRowsSplits(kern: Kernels, s: Shape, b: Block, xs: seq<Vec>, ys: seq<Vec>, position: nat, c: LayerCache)
    ensures var c1 := AppendRows(kern, s, b, xs, position, c);
            AppendRows(kern, s, b, xs + ys, position, c) == AppendRows(kern, s, b, ys, position + |xs|, c1)
  {
    hide KeyRow, ValueRow;
    var c1 := AppendRows(kern, s, b, xs, position, c);
    var both, second := AppendRows(kern, s, b, xs + ys, position, c), AppendRows(kern, s, b, ys, position + |xs|, c1);
    assert both.keys == second.keys;
    assert both.values == second.values;
  }

  /** A query of the first chunk does not see the keys of the second. */
  lemma FirstChunk(kern: Kernels, s: Shape, b: Block, xs: seq<Vec>, ys: seq<Vec>, position: nat, c: LayerCache, i: nat)
    requires WellFormedLayer(c, position) && i < |xs| && ys != []
    ensures Attend(kern, s, b, xs + ys, position, c)[i] == Attend(kern, s, b, xs, position, c)[i]
  {
    var c1, c2 := AppendRows(kern, s, b, xs, position, c), AppendRows(kern, s, b, xs + ys, position, c);
    var moreKeys, moreValues := c2.keys[|c1.keys|..], c2.values[|c1.keys|..];
    assert c2.keys == c1.keys + moreKeys && c2.values == c1.values + moreValues;
    hide AppendRows, AttendAt;
    AttendIgnoresMasked(kern, s, b, xs[i], position + i, c1.keys, c1.values, moreKeys, moreValues, position + i + 1);
  }

  /** A query of the second chunk sees the same keys in both cases. */
  lemma SecondChunk(kern: Kernels, s: Shape, b: Block, xs: seq<Vec>, ys: seq<Vec>, position: nat, c: LayerCache, i: nat)
    requires WellFormedLayer(c, position) && xs != [] && i < |ys|
    ensures Attend(kern, s, b, xs + ys, position, c)[|xs| + i]
            == Attend(kern, s, b, ys, position + |xs|, AppendRows(kern, s, b, xs, position, c))[i]
  {
    AppendRowsSplits(kern, s, b, xs, ys, position, c);
    hide AppendRows, AttendAt;
  }

  /** Attention of two chunks fed one after the other is attention of both fed together. This holds
  for chunks of one token too, where the mask is skipped: the query then is the newest key. */
  lemma AttendSplits(kern: Kernels, s: Shape, b: Block, xs: seq<Vec>, ys: seq<Vec>, position: nat, c: LayerCache)
    requires WellFormedLayer(c, position) && xs != [] && ys != []
    ensures var c1 := AppendRows(kern, s, b, xs, position, c);
            Attend(kern, s, b, xs + ys, position, c) == Attend(kern, s, b, xs, position, c) + Attend(kern, s, b, ys, position + |xs|, c1)
  {
    hide Attend, AppendRows;
    var c1 := AppendRows(kern, s, b, xs, position, c);
    var both, first, second := Attend(kern, s, b, xs + ys, position, c), Attend(kern, s, b, xs, position, c), Attend(kern, s, b, ys, position + |xs|, c1);
    forall i | 0 <= i < |xs| ensures both[i] == first[i] {
      FirstChunk(kern, s, b, xs, ys, position, c, i);
    }
    forall i | 0 <= i < |ys| ensures both[|xs| + i] == second[i] {
      SecondChunk(kern, s, b, xs, ys, position, c, i);
    }
    assert both == first + second;
  }

  lemma OutsSplit(kern: Kernels, b: Block, xs: seq<Vec>, ys: seq<Vec>, lx: seq<Vec>, ly: seq<Vec>)
    requires |lx| == |xs| && |ly| == |ys|
    ensures BlockOuts(kern, b, xs + ys, lx + ly) == BlockOuts(kern, b, xs, lx) + BlockOuts(kern, b, ys, ly)
  {
    hide AfterMlp, AfterAttention;
    assert BlockOuts(kern, b, xs + ys, lx + ly) == BlockOuts(kern, b, xs, lx) + BlockOuts(kern, b, ys, ly);
  }

  lemma NormsSplit(kern: Kernels, weight: Vec, xs: seq<Vec>, ys: seq<Vec>)
    ensures NormAll(kern, weight, xs + ys) == NormAll(kern, weight, xs) + NormAll(kern, weight, ys)
  {
    hide Norm;
  }

  lemma BlockSplits(kern: Kernels, s: Shape, b: Block, xs: seq<Vec>, ys: seq<Vec>, position: nat, c: LayerCache)
    requires WellFormedLayer(c, position) && xs != [] && ys != []
    ensures var c1 := BlockCache(kern, s, b, xs, position, c);
            && WellFormedLayer(c1, position + |xs|)
            && BlockCache(kern, s, b, xs + ys, position, c) == BlockCache(kern, s, b, ys, position + |xs|, c1)
            && RunBlock(kern, s, b, xs + ys, position, c) == RunBlock(kern, s, b, xs, position, c) + RunBlock(kern, s, b, ys, position + |xs|, c1)
  {
    hide Attend, AppendRows, BlockOuts;
    var nx, ny := NormAll(kern, b.inputNorm, xs), NormAll(kern, b.inputNorm, ys);
    NormsSplit(kern, b.inputNorm, xs, ys);
    hide NormAll;
    AppendRowsSplits(kern, s, b, nx, ny, position, c);
    AttendSplits(kern, s, b, nx, ny, position, c);
    OutsSplit(kern, b, xs, ys, Attend(kern, s, b, nx, position, c),
              Attend(kern, s, b, ny, position + |xs|, BlockCache(kern, s, b, xs, position, c)));
  }

  // ---- all blocks, all chunks ----

  lemma {:induction false} BlocksSplit(kern: Kernels, s: Shape, blocks: seq<Block>, xs: seq<Vec>, ys: seq<Vec>, position: nat, caches: seq<LayerCache>)
    requires |blocks| == |caches| && Aligned(caches, position) && xs != [] && ys != []
    ensures var caches1 := BlockCaches(kern, s, blocks, xs, position, caches);
            && BlockCaches(kern, s, blocks, xs + ys, position, caches) == BlockCaches(kern, s, blocks, ys, position + |xs|, caches1)
            && RunBlocks(kern, s, blocks, xs + ys, position, caches)
               == RunBlocks(kern, s, blocks, xs, position, caches) + RunBlocks(kern, s, blocks, ys, position + |xs|, caches1)
    decreases |blocks|
  {
    if blocks != [] {
      BlockSplits(kern, s, blocks[0], xs, ys, position, caches[0]);
      var x1 := RunBlock(kern, s, blocks[0], xs, position, caches[0]);
      var y1 := RunBlock(kern, s, blocks[0], ys, position + |xs|, BlockCache(kern, s, blocks[0], xs, position, caches[0]));
      BlocksSplit(kern, s, blocks[1..], x1, y1, position, caches[1..]);
      hide RunBlock, BlockCache;
      var caches1 := BlockCaches(kern, s, blocks, xs, position, caches);
      assert caches1[1..] == BlockCaches(kern, s, blocks[1..], x1, position, caches[1..]);
    }
  }

  /** A prefill followed by a cached forward gives the logits and the cache of one forward. */
  lemma ForwardSplits(kern: Kernels, s: Shape, m: Model, first: seq<nat>, second: seq<nat>, c: Cache)
    requires ValidCache(m, c) && m.blocks != [] && first != [] && second != []
    requires Forward(kern, s, m, first + second, Length(c), c).Ok?
    ensures var one := Forward(kern, s, m, first, Length(c), c);
            && one.Ok? && ValidCache(m, one.value.1) && Length(one.value.1) == Length(c) + |first|
            && one.value.1.capacity == c.capacity
            && Forward(kern, s, m, second, Length(one.value.1), one.value.1) == Forward(kern, s, m, first + second, Length(c), c)
  {
    var p := Length(c);
    forall i | 0 <= i < |first| ensures first[i] < |m.embeddings| {
      assert (first + second)[i] == first[i];
    }
    forall i | 0 <= i < |second| ensures second[i] < |m.embeddings| {
      assert (first + second)[|first| + i] == second[i];
    }
    var xs, ys := Embed(m, first), Embed(m, second);
    assert Embed(m, first + second) == xs + ys;
    BlocksSplit(kern, s, m.blocks, xs, ys, p, c.layers);
  }

  // ---- any number of chunks ----

  /** Feeds `chunks` one after the other, each at position `cache.len()`; the result is that of the last one. */
  function Feed(kern: Kernels, s: Shape, m: Model, chunks: seq<seq<nat>>, c: Cache): Result<(Vec, Cache), ForwardError>
    requires ValidCache(m, c) && chunks != []
    decreases |chunks|
  {
    var one := Forward(kern, s, m, chunks[0], Length(c), c);
    if |chunks| == 1 || one.Err? then one
    else
      ForwardKeepsCache(kern, s, m, chunks[0], c);
      Feed(kern, s, m, chunks[1..], one.value.1)
  }

  lemma ForwardKeepsCache(kern: Kernels, s: Shape, m: Model, tokens: seq<nat>, c: Cache)
    requires ValidCache(m, c)
    ensures var one := Forward(kern, s, m, tokens, Length(c), c);
            one.Ok? ==> ValidCache(m, one.value.1) && one.value.1.capacity == c.capacity
                        && (m.blocks != [] ==> Length(one.value.1) == Length(c) + |tokens|)
  {
    hide RunBlocks;
  }

  /** However a token sequence is cut into non-empty chunks, feeding them through the cache ends with
  the logits and the cache of one forward over the whole sequence. */
  lemma {:induction false} ChunksAreOneForward(kern: Kernels, s: Shape, m: Model, chunks: seq<seq<nat>>, c: Cache)
    requires ValidCache(m, c) && m.blocks != [] && chunks != []
    requires forall i :: 0 <= i < |chunks| ==> chunks[i] != []
    requires Forward(kern, s, m, Join(chunks), Length(c), c).Ok?
    ensures Feed(kern, s, m, chunks, c) == Forward(kern, s, m, Join(chunks), Length(c), c)
    decreases |chunks|
  {
    hide Forward;
    if |chunks| == 1 {
      assert Join(chunks) == chunks[0] + Join([]) == chunks[0];
    } else {
      assert Join(chunks[1..]) == chunks[1] + Join(chunks[1..][1..]);
      ForwardSplits(kern, s, m, chunks[0], Join(chunks[1..]), c);
      var c1 := Forward(kern, s, m, chunks[0], Length(c), c).value.1;
      ChunksAreOneForward(kern, s, m, chunks[1..], c1);
    }
  }

  /** Feeding chunks succeeds exactly when one forward over the whole sequence does: the capacity and
  vocabulary errors are the same on both sides. */
  lemma {:induction false} ChunksFailTogether(kern: Kernels, s: Shape, m: Model, chunks: seq<seq<nat>>, c: Cache)
    requires ValidCache(m, c) && m.blocks != [] && chunks != []
    requires forall i :: 0 <= i < |chunks| ==> chunks[i] != []
    ensures Feed(kern, s, m, chunks, c).Ok? <==> Length(c) + |Join(chunks)| <= c.capacity && Known(m, Join(chunks))
    ensures Forward(kern, s, m, Join(chunks), Length(c), c).Ok? <==> Length(c) + |Join(chunks)| <= c.capacity && Known(m, Join(chunks))
    decreases |chunks|
  {
    hide RunBlocks, BlockCaches, Finish;
    assert Join(chunks) == chunks[0] + Join(chunks[1..]);
    var whole, rest := Join(chunks), Join(chunks[1..]);
    if |chunks| == 1 {
      assert whole == chunks[0];
    } else {
      ForwardKeepsCache(kern, s, m, chunks[0], c);
      if Forward(kern, s, m, chunks[0], Length(c), c).Ok? {
        ChunksFailTogether(kern, s, m, chunks[1..], Forward(kern, s, m, chunks[0], Length(c), c).value.1);
      }
      assert Known(m, whole) <==> Known(m, chunks[0]) && Known(m, rest) by {
        assert forall i :: 0 <= i < |rest| ==> whole[|chunks[0]| + i] == rest[i];
        assert forall i :: 0 <= i < |chunks[0]| ==> whole[i] == chunks[0][i];
      }
    }
  }
}
