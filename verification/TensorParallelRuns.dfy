/** The tensor-parallel ranks, under any schedule, end with the result of single-process generation. */
module TensorParallelRuns {
  import opened Options
  import opened Arithmetic
  import opened Sequences
  import opened Network
  import opened Tags
  import opened Collectives
  import opened CollectiveSpecs
  import opened CollectiveAlgebra
  import opened LinearAlgebra
  import opened Llama
  import opened ChunkedForward
  import opened Generation
  import opened Partition
  import opened TcpBarrier
  import opened TensorShards
  import opened TensorParallel

  /** Collectives of one forward: the embedding, two per layer, and the logits. */
  function PerForward(su: TpSetup): nat {
    2 * |su.engine.model.blocks| + 2
  }

  // ---- frames ----

  /** Frames of one all-reduce, of the gathered logits, of so many layers, of a forward, of a step with its
  decision, of so many steps, and of the whole run with both barriers. */
  function SumFrames(su: TpSetup): nat {
    CallFrames(su.size, if su.ring then RingAllReduceCall else CentralizedAllReduceCall)
  }

  function GatherFrames(su: TpSetup): nat {
    CallFrames(su.size, AllGatherCall)
  }

  function LayersFrames(su: TpSetup, layers: nat): nat {
    if layers == 0 then 0 else 2 * SumFrames(su) + LayersFrames(su, layers - 1)
  }

  function ForwardFrames(su: TpSetup): nat {
    SumFrames(su) + LayersFrames(su, |su.engine.model.blocks|) + GatherFrames(su)
  }

  function StepFrames(su: TpSetup): nat
    requires su.size > 0
  {
    ForwardFrames(su) + (su.size - 1)
  }

  function LoopFrames(su: TpSetup, forwards: nat): nat
    requires su.size > 0
  {
    if forwards == 0 then 0 else StepFrames(su) + LoopFrames(su, forwards - 1)
  }

  function RunFrames(su: TpSetup, g: Generated): nat
    requires su.size > 0
  {
    4 * (su.size - 1) + LoopFrames(su, Forwards(g))
  }

  lemma {:induction false} LayersFramesIs(su: TpSetup, layers: nat)
    ensures LayersFrames(su, layers) == (2 * layers) * SumFrames(su)
  {
    if layers > 0 {
      hide SumFrames;
      LayersFramesIs(su, layers - 1);
      MulSucc(2 * layers - 2, SumFrames(su));
      MulSucc(2 * layers - 1, SumFrames(su));
    }
  }

  lemma {:induction false} LoopFramesIs(su: TpSetup, forwards: nat)
    requires su.size > 0
    ensures LoopFrames(su, forwards) == forwards * StepFrames(su)
  {
    if forwards > 0 {
      hide StepFrames;
      LoopFramesIs(su, forwards - 1);
      MulSucc(forwards - 1, StepFrames(su));
    }
  }

  /** A run hands over four frames per peer for the barriers and, per forward, 2 * layers + 1 all-reduces and
  three frames per peer for the logits and the decision. An all-reduce is two frames per peer through rank 0,
  and two frames per rank and peer on the ring: as many times more as there are ranks. */
  lemma RunFramesIs(su: TpSetup, g: Generated)
    requires 0 < su.size && (su.ring ==> su.size <= MAX_EXCHANGE_WORLD)
    ensures RunFrames(su, g) == 4 * (su.size - 1) + Forwards(g) * ((2 * |su.engine.model.blocks| + 1) * SumFrames(su) + 3 * (su.size - 1))
    ensures SumFrames(su) == 2 * (su.size - 1) * (if su.ring then su.size else 1)
  {
    LoopFramesIs(su, Forwards(g));
    LayersFramesIs(su, |su.engine.model.blocks|);
    CallFramesIs(su.size, if su.ring then RingAllReduceCall else CentralizedAllReduceCall);
    MulSucc(2 * |su.engine.model.blocks|, SumFrames(su));
  }

  /** With four bytes per value a ring all-reduce moves 2 (p-1) chunks of 4 N/p bytes each way on every rank. */
  lemma RingBytes(su: TpSetup, sequence: nat, xs: seq<seq<real>>, r: nat)
    requires Valid(RealWorld(su), RingAllReduceCall, sequence, xs) && r < su.size && su.size > 1
    ensures var o := Spec(RealWorld(su), RingAllReduceCall, sequence, xs, r);
            o.sent == o.received == 2 * ((su.size - 1) * (4 * (|xs[0]| / su.size)))
  {
    RingTraffic(RealWorld(su), sequence, xs, r);
  }

  /** The checks of the shard planner, and the checkpoint's weight shapes. */
  ghost predicate Splittable(su: TpSetup) {
    && 0 < su.size && (su.ring ==> su.size <= MAX_EXCHANGE_WORLD)
    && su.width % su.size == 0 && HeadsDivide(su.engine.shape, su.size)
    && forall l :: 0 <= l < |su.engine.model.blocks| ==> ShardableBlock(su, su.engine.model.blocks[l])
  }

  /** A setup that passes all checks, with a bound on the run that keeps the collective tags in range. */
  ghost predicate ValidTp(su: TpSetup) {
    && ValidEngine(su.engine) && ValidRequest(su.engine, su.request) && Splittable(su)
    && |su.engine.model.embeddings| % su.size == 0 && AllWide(su.engine.model.embeddings, su.width)
    && su.request.effective * PerForward(su) <= MAX_SEQUENCES
  }

  ghost predicate ShardableBlock(su: TpSetup, b: Block) {
    su.size > 0 && |b.gate| % su.size == 0 && BlockShapes(su.engine.shape, b, su.width, |b.gate|)
  }

  // ---- one all-reduce ----

  ghost predicate SameGrid(parts: seq<seq<Vec>>, n: nat, width: nat) {
    forall r :: 0 <= r < |parts| ==> |parts[r]| == n && AllWide(parts[r], width)
  }

  /** The sums over ranks, position by position. */
  ghost function SumRows(parts: seq<seq<Vec>>, n: nat, width: nat): (sums: seq<Vec>)
    requires parts != [] && SameGrid(parts, n, width)
    ensures |sums| == n && AllWide(sums, width)
  {
    seq(n, i requires 0 <= i < n => RankSum(Column(parts, i), width))
  }

  ghost function Flat(parts: seq<seq<Vec>>): (xs: seq<Vec>)
    ensures |xs| == |parts|
  {
    seq(|parts|, r requires 0 <= r < |parts| => Join(parts[r]))
  }

  /** Reducing the flattened activations and restoring their shape adds them up position by position. */
  lemma FlatSum(w: World<real>, parts: seq<seq<Vec>>, n: nat, width: nat)
    requires w.plus == RealAdd && |parts| == w.size > 0 && SameGrid(parts, n, width)
    ensures SameLength(Flat(parts)) && |Flat(parts)[0]| == n * width
    ensures Heads(Sum(w, 0, Flat(parts)), n, width) == SumRows(parts, n, width)
  {
    var xs := Flat(parts);
    forall r | 0 <= r < |xs| ensures |xs[r]| == n * width {
      JoinLength(parts[r], width);
    }
    var sum := Sum(w, 0, xs);
    forall i | 0 <= i < n ensures Heads(sum, n, width)[i] == SumRows(parts, n, width)[i] {
      PieceFits(i, n, width);
      forall j | 0 <= j < width ensures Heads(sum, n, width)[i][j] == SumRows(parts, n, width)[i][j] {
        FlatSumAt(w, parts, n, width, i, j);
      }
    }
  }

  lemma FlatSumAt(w: World<real>, parts: seq<seq<Vec>>, n: nat, width: nat, i: nat, j: nat)
    requires w.plus == RealAdd && |parts| == w.size > 0 && SameGrid(parts, n, width) && i < n && j < width
    requires SameLength(Flat(parts)) && |Flat(parts)[0]| == n * width && (i + 1) * width <= n * width
    ensures Piece(Sum(w, 0, Flat(parts)), i, width)[j] == RankSum(Column(parts, i), width)[j]
  {
    var xs, at := Flat(parts), i * width + j;
    PieceAt(Sum(w, 0, xs), i, width, j);
    forall r | 0 <= r < w.size ensures at < |xs[r]| && xs[r][at] == parts[r][i][j] {
      JoinAt(parts[r], width, i, j);
    }
    assert Column(xs, at) == Column(Column(parts, i), j);
    RootSumIsFold(w, xs, at);
  }

  /** Both all-reduce algorithms return the sum; the ring's division check cannot fail. */
  lemma AllReduceResult(su: TpSetup, sequence: nat, parts: seq<seq<Vec>>, n: nat, r: nat)
    requires Splittable(su) && su.size == |parts|
    requires sequence < MAX_SEQUENCES && SameGrid(parts, n, su.width) && r < su.size
    ensures var call := if su.ring then RingAllReduceCall else CentralizedAllReduceCall;
            && Valid(RealWorld(su), call, sequence, Flat(parts))
            && var o := Spec(RealWorld(su), call, sequence, Flat(parts), r);
               o.tensor.Some? && Heads(o.tensor.value, n, su.width) == SumRows(parts, n, su.width)
  {
    var w, xs := RealWorld(su), Flat(parts);
    FlatSum(w, parts, n, su.width);
    DivExact(su.width, su.size);
    MulAssoc(n, su.size, su.width / su.size);
    MulAssoc(su.size, n, su.width / su.size);
    DivModUnique(n * su.width, n * (su.width / su.size), 0, su.size);
    hide SumRows, SameGrid, Heads;
    if su.ring {
      RealAddIsNice();
      if su.size == 1 {
        assert SumOnto(w, 0, 0, xs[0], xs) == SumOnto(w, 1, 0, xs[0], xs) == xs[0];
      } else {
        RingIsCentralized(w, xs);
      }
    }
  }

  /** All ranks get through an all-reduce with the sum of what they brought. */
  lemma AllReduceRuns(su: TpSetup, procs: seq<TpProc>, sequence: nat, parts: seq<seq<Vec>>, n: nat, ks: seq<seq<Vec> -> TpProc>) returns (end: seq<TpProc>)
    requires Splittable(su) && su.size == |procs| == |parts| == |ks|
    requires sequence < MAX_SEQUENCES && SameGrid(parts, n, su.width)
    requires forall r :: 0 <= r < su.size ==> procs[r] == SumAcross(su, r, sequence, parts[r], ks[r])
    ensures ReachesWith(procs, end, SumFrames(su)) && |end| == su.size
    ensures forall r :: 0 <= r < su.size ==> end[r] == ks[r](SumRows(parts, n, su.width))
  {
    var w, call := RealWorld(su), if su.ring then RingAllReduceCall else CentralizedAllReduceCall;
    AllReduceResult(su, sequence, parts, n, 0);
    forall r | 0 <= r < su.size
      ensures Spec(w, call, sequence, Flat(parts), r).tensor.Some?
      ensures Heads(Spec(w, call, sequence, Flat(parts), r).tensor.value, n, su.width) == SumRows(parts, n, su.width)
    {
      AllReduceResult(su, sequence, parts, n, r);
    }
    hide Valid, Spec, SumRows, Heads, ReachesWith, CallProc, HeadsDivide, ShardableBlock;
    var shaped := seq(su.size, r requires 0 <= r < su.size => ThenShape(n, su.width, ks[r]));
    end := CallCompletes(w, call, sequence, Flat(parts), procs, shaped);
  }

  // ---- one layer ----

  /** Rank `r`'s part of the whole cache: all layers and positions, its own compact heads. */
  ghost function ShardCache(su: TpSetup, c: Cache, r: nat): Cache
    requires su.size > 0
  {
    c.(layers := seq(|c.layers|, l requires 0 <= l < |c.layers| => ShardLayer(c.layers[l], r, su.engine.shape.kvHeads / su.size)))
  }

  /** Rank `r`'s state when `g` is the state of a single process with the whole cache. */
  ghost function RankState(su: TpSetup, g: TpState, r: nat): TpState
    requires su.size > 0
  {
    g.(cache := ShardCache(su, g.cache, r))
  }

  /** Layer `layer` of the whole cache is ready for `n` more positions. */
  ghost predicate LayerReady(su: TpSetup, g: TpState, layer: nat, n: nat) {
    && Splittable(su) && layer < |su.engine.model.blocks| == |g.cache.layers|
    && |g.cache.layers[layer].keys| == |g.cache.layers[layer].values| == g.position
    && FullRows(g.cache.layers[layer], su.engine.shape.kvHeads)
    && g.position + n <= g.cache.capacity && g.sequence + 2 <= MAX_SEQUENCES
  }

  ghost function AttentionParts(su: TpSetup, b: Block, xs: seq<Vec>, position: nat, c: LayerCache): (parts: seq<seq<Vec>>)
    requires su.size > 0 && |c.keys| == |c.values|
    ensures |parts| == su.size
  {
    seq(su.size, r requires 0 <= r < su.size =>
      LinearAll(ShardBlock(b, su.size, r).o,
                Attend(su.engine.kern, ShardShape(su.engine.shape, su.size), ShardBlock(b, su.size, r), xs, position,
                       ShardLayer(c, r, su.engine.shape.kvHeads / su.size))))
  }

  /** What rank `r` computes at position `i`: its columns of the output weights times its piece of the heads. */
  lemma AttentionPart(su: TpSetup, b: Block, xs: seq<Vec>, position: nat, c: LayerCache, r: nat, i: nat, m: nat)
    requires HeadsDivide(su.engine.shape, su.size) && ShardableBlock(su, b) && r < su.size && i < |xs|
    requires |c.keys| == |c.values| && FullRows(c, su.engine.shape.kvHeads)
    requires m == (su.engine.shape.queryHeads / su.size) * su.engine.shape.headDim
    ensures var part := AttentionParts(su, b, xs, position, c)[r];
            && |part| == |xs| && |part[i]| == su.width
            && part[i] == Linear(Columns(b.o, su.size, r), Piece(Attend(su.engine.kern, su.engine.shape, b, xs, position, c)[i], r, m))
  {
    hide Attend, Piece, ShardShape, FullRows;
    AttendOfShard(su.engine.kern, su.engine.shape, b, su.size, r, xs, position, c, i);
  }

  /** The partial attention outputs add up to the attention output of the whole block. */
  lemma AttentionSums(su: TpSetup, b: Block, xs: seq<Vec>, position: nat, c: LayerCache)
    requires HeadsDivide(su.engine.shape, su.size) && ShardableBlock(su, b)
    requires |c.keys| == |c.values| && FullRows(c, su.engine.shape.kvHeads)
    ensures SameGrid(AttentionParts(su, b, xs, position, c), |xs|, su.width)
    ensures SumRows(AttentionParts(su, b, xs, position, c), |xs|, su.width)
            == LinearAll(b.o, Attend(su.engine.kern, su.engine.shape, b, xs, position, c))
  {
    var s, kern, parts := su.engine.shape, su.engine.kern, AttentionParts(su, b, xs, position, c);
    var m, all := (s.queryHeads / su.size) * s.headDim, Attend(kern, s, b, xs, position, c);
    forall r | 0 <= r < su.size
      ensures |parts[r]| == |xs| && AllWide(parts[r], su.width)
      ensures forall i :: 0 <= i < |xs| ==> parts[r][i] == Linear(Columns(b.o, su.size, r), Piece(all[i], r, m))
    {
      hide *;
      forall i | 0 <= i < |xs|
        ensures |parts[r][i]| == su.width && parts[r][i] == Linear(Columns(b.o, su.size, r), Piece(all[i], r, m))
      {
        AttentionPart(su, b, xs, position, c, r, i, m);
      }
    }
    DivExact(s.queryHeads, su.size);
    MulAssoc(su.size, s.queryHeads / su.size, s.headDim);
    hide Attend, AttentionParts, Piece, HeadsDivide, FullRows, RankSum;
    forall i | 0 <= i < |xs| ensures RankSum(Column(parts, i), su.width) == Linear(b.o, all[i]) {
      AttendWidth(kern, s, b, xs, position, c, i);
      RowParallelSums(b.o, all[i], su.size, m, Column(parts, i));
    }
  }

  ghost function MlpParts(su: TpSetup, b: Block, xs: seq<Vec>): (parts: seq<seq<Vec>>)
    requires su.size > 0
    ensures |parts| == su.size
  {
    seq(su.size, r requires 0 <= r < su.size =>
      LinearAll(ShardBlock(b, su.size, r).down, GatedAll(su.engine.kern, ShardBlock(b, su.size, r), xs)))
  }

  lemma MlpSums(su: TpSetup, b: Block, xs: seq<Vec>)
    requires ShardableBlock(su, b)
    ensures SameGrid(MlpParts(su, b, xs), |xs|, su.width)
    ensures SumRows(MlpParts(su, b, xs), |xs|, su.width) == LinearAll(b.down, GatedAll(su.engine.kern, b, xs))
  {
    var kern, parts := su.engine.kern, MlpParts(su, b, xs);
    var m := |b.gate| / su.size;
    DivExact(|b.gate|, su.size);
    forall r, i | 0 <= r < su.size && 0 <= i < |xs|
      ensures parts[r][i] == Linear(Columns(b.down, su.size, r), Piece(Gated(kern, b, xs[i]), r, m))
    {
      GatedOfShard(kern, b, su.size, r, m, xs[i]);
    }
    forall i | 0 <= i < |xs| ensures RankSum(Column(parts, i), su.width) == Linear(b.down, Gated(kern, b, xs[i])) {
      GatedOfShard(kern, b, su.size, 0, m, xs[i]);
      RowParallelSums(b.down, Gated(kern, b, xs[i]), su.size, m, Column(parts, i));
    }
  }

  ghost function AttentionInput(su: TpSetup, layer: nat, hidden: seq<Vec>): (xs: seq<Vec>)
    requires layer < |su.engine.model.blocks|
    ensures |xs| == |hidden|
  {
    NormAll(su.engine.kern, su.engine.model.blocks[layer].inputNorm, hidden)
  }

  /** The single-process state after the attention of a layer, and after the whole layer. */
  ghost function AfterHalf(su: TpSetup, g: TpState, layer: nat, hidden: seq<Vec>): TpState
    requires layer < |su.engine.model.blocks| == |g.cache.layers|
  {
    g.(cache := g.cache.(layers := g.cache.layers[layer := BlockCache(su.engine.kern, su.engine.shape, su.engine.model.blocks[layer], hidden,
                                                                      g.position, g.cache.layers[layer])]),
       sequence := g.sequence + 1)
  }

  ghost function AfterLayer(su: TpSetup, g: TpState, layer: nat, hidden: seq<Vec>): TpState
    requires layer < |su.engine.model.blocks| == |g.cache.layers|
  {
    var half := AfterHalf(su, g, layer, hidden);
    half.(sequence := g.sequence + 2)
  }

  lemma ShardCacheUpdate(su: TpSetup, c: Cache, layer: nat, next: LayerCache, r: nat)
    requires su.size > 0 && layer < |c.layers|
    ensures var shard := ShardCache(su, c, r);
            ShardCache(su, c.(layers := c.layers[layer := next]), r)
            == shard.(layers := shard.layers[layer := ShardLayer(next, r, su.engine.shape.kvHeads / su.size)])
  {
    hide ShardLayer;
    var shard := ShardCache(su, c, r);
    assert ShardCache(su, c.(layers := c.layers[layer := next]), r).layers
           == shard.layers[layer := ShardLayer(next, r, su.engine.shape.kvHeads / su.size)];
  }

  /** The attention output of a layer and its feed-forward output, before the residual additions. */
  ghost function AttentionOutput(su: TpSetup, g: TpState, layer: nat, hidden: seq<Vec>): (ys: seq<Vec>)
    requires LayerReady(su, g, layer, |hidden|)
    ensures |ys| == |hidden|
  {
    var b := su.engine.model.blocks[layer];
    LinearAll(b.o, Attend(su.engine.kern, su.engine.shape, b, AttentionInput(su, layer, hidden), g.position, g.cache.layers[layer]))
  }

  ghost function MlpOutput(su: TpSetup, layer: nat, hidden: seq<Vec>): (ys: seq<Vec>)
    requires layer < |su.engine.model.blocks|
    ensures |ys| == |hidden|
  {
    var b := su.engine.model.blocks[layer];
    LinearAll(b.down, GatedAll(su.engine.kern, b, NormAll(su.engine.kern, b.postNorm, hidden)))
  }

  /** The parts of the ranks at the two all-reduces of a layer. */
  ghost function PartsAt(su: TpSetup, g: TpState, layer: nat, hidden: seq<Vec>): (parts: seq<seq<Vec>>)
    requires LayerReady(su, g, layer, |hidden|)
    ensures |parts| == su.size
  {
    AttentionParts(su, su.engine.model.blocks[layer], AttentionInput(su, layer, hidden), g.position, g.cache.layers[layer])
  }

  ghost function MlpPartsAt(su: TpSetup, layer: nat, hidden: seq<Vec>): (parts: seq<seq<Vec>>)
    requires su.size > 0 && layer < |su.engine.model.blocks|
    ensures |parts| == su.size
  {
    MlpParts(su, su.engine.model.blocks[layer], NormAll(su.engine.kern, su.engine.model.blocks[layer].postNorm, hidden))
  }

  lemma PartsSum(su: TpSetup, g: TpState, layer: nat, hidden: seq<Vec>)
    requires LayerReady(su, g, layer, |hidden|)
    ensures SameGrid(PartsAt(su, g, layer, hidden), |hidden|, su.width)
    ensures SumRows(PartsAt(su, g, layer, hidden), |hidden|, su.width) == AttentionOutput(su, g, layer, hidden)
  {
    assert ShardableBlock(su, su.engine.model.blocks[layer]);
    hide Attend, AttentionParts, SumRows, SameGrid, HeadsDivide, FullRows, ShardableBlock;
    AttentionSums(su, su.engine.model.blocks[layer], AttentionInput(su, layer, hidden), g.position, g.cache.layers[layer]);
  }

  lemma MlpPartsSum(su: TpSetup, layer: nat, hidden: seq<Vec>)
    requires Splittable(su) && layer < |su.engine.model.blocks|
    ensures SameGrid(MlpPartsAt(su, layer, hidden), |hidden|, su.width)
    ensures SumRows(MlpPartsAt(su, layer, hidden), |hidden|, su.width) == MlpOutput(su, layer, hidden)
  {
    assert ShardableBlock(su, su.engine.model.blocks[layer]);
    hide MlpParts, SumRows, SameGrid, HeadsDivide, ShardableBlock;
    MlpSums(su, su.engine.model.blocks[layer], NormAll(su.engine.kern, su.engine.model.blocks[layer].postNorm, hidden));
  }

  /** The rank's own layer: its local result is its part, and its next state is its part of the whole cache. */
  ghost predicate LocalStep(su: TpSetup, r: nat, g: TpState, layer: nat, hidden: seq<Vec>)
    requires LayerReady(su, g, layer, |hidden|) && r < su.size
  {
    var e, st := su.engine, RankState(su, g, r);
    && LayerFits(st, layer, |hidden|)
    && AfterAttending(su, r, st, layer, hidden) == RankState(su, AfterHalf(su, g, layer, hidden), r)
    && var b, s, c := ShardBlock(e.model.blocks[layer], su.size, r), ShardShape(e.shape, su.size), st.cache.layers[layer];
       LinearAll(b.o, Attend(e.kern, s, b, NormAll(e.kern, b.inputNorm, hidden), st.position, c)) == PartsAt(su, g, layer, hidden)[r]
  }

  lemma LocalLayer(su: TpSetup, r: nat, g: TpState, layer: nat, hidden: seq<Vec>)
    requires LayerReady(su, g, layer, |hidden|) && r < su.size
    ensures LocalStep(su, r, g, layer, hidden)
  {
    var e, b, c := su.engine, su.engine.model.blocks[layer], g.cache.layers[layer];
    assert ShardableBlock(su, b);
    AppendOfShard(e.kern, e.shape, b, su.size, r, AttentionInput(su, layer, hidden), g.position, c);
    ShardCacheUpdate(su, g.cache, layer, BlockCache(e.kern, e.shape, b, hidden, g.position, c), r);
    hide Attend, AppendRows, ShardLayer, ShardShape, NormAll, LinearAll, HeadsDivide, FullRows, Splittable, ShardableBlock, Rows, Columns;
  }

  // All ranks at the same point, in terms of the single-process state `g`.

  ghost predicate AllAtLayer(su: TpSetup, procs: seq<TpProc>, step: nat, g: TpState, layer: nat, hidden: seq<Vec>) {
    && step < su.request.effective && |procs| == su.size
    && forall r :: 0 <= r < su.size ==> RankAtLayer(su, procs[r], r, step, g, layer, hidden)
  }

  ghost predicate AllAtMlp(su: TpSetup, procs: seq<TpProc>, step: nat, g: TpState, layer: nat, hidden: seq<Vec>) {
    && step < su.request.effective && |procs| == su.size && layer < |su.engine.model.blocks|
    && forall r :: 0 <= r < su.size ==> RankAtMlp(su, procs[r], r, step, g, layer, hidden)
  }

  /** Rank `r` is at an all-reduce of its part, with its continuation to follow. */
  ghost predicate Summing(su: TpSetup, p: TpProc, r: nat, sequence: nat, parts: seq<seq<Vec>>, ks: seq<seq<Vec> -> TpProc>) {
    r < su.size == |parts| == |ks| && p == SumAcross(su, r, sequence, parts[r], ks[r])
  }

  ghost predicate AllSumming(su: TpSetup, procs: seq<TpProc>, sequence: nat, parts: seq<seq<Vec>>, ks: seq<seq<Vec> -> TpProc>) {
    |procs| == |parts| == |ks| == su.size && forall r :: 0 <= r < su.size ==> Summing(su, procs[r], r, sequence, parts, ks)
  }

  ghost function ThenMlps(su: TpSetup, step: nat, g: TpState, layer: nat, hidden: seq<Vec>): (ks: seq<seq<Vec> -> TpProc>)
    requires step < su.request.effective && layer < |su.engine.model.blocks|
    ensures |ks| == su.size
  {
    seq(su.size, r requires 0 <= r < su.size => ThenMlp(su, r, step, RankState(su, g, r), layer, hidden))
  }

  ghost function ThenNextLayers(su: TpSetup, step: nat, g: TpState, layer: nat, hidden: seq<Vec>): (ks: seq<seq<Vec> -> TpProc>)
    requires step < su.request.effective && layer < |su.engine.model.blocks|
    ensures |ks| == su.size
  {
    seq(su.size, r requires 0 <= r < su.size => ThenNextLayer(su, r, step, RankState(su, g, r), layer, hidden))
  }

  ghost predicate RankAtLayer(su: TpSetup, p: TpProc, r: nat, step: nat, g: TpState, layer: nat, hidden: seq<Vec>) {
    r < su.size && step < su.request.effective && p == AtLayer(su, r, step, RankState(su, g, r), layer, hidden)
  }

  ghost predicate RankAtMlp(su: TpSetup, p: TpProc, r: nat, step: nat, g: TpState, layer: nat, hidden: seq<Vec>) {
    && r < su.size && step < su.request.effective && layer < |su.engine.model.blocks|
    && p == AtMlp(su, r, step, RankState(su, g, r), layer, hidden)
  }

  /** A rank at a layer is at the all-reduce of its attention part. */
  ghost predicate RankSumsAttention(su: TpSetup, p: TpProc, r: nat, step: nat, g: TpState, layer: nat, hidden: seq<Vec>)
    requires LayerReady(su, g, layer, |hidden|) && step < su.request.effective
  {
    Summing(su, p, r, g.sequence, PartsAt(su, g, layer, hidden), ThenMlps(su, step, AfterHalf(su, g, layer, hidden), layer, hidden))
  }

  lemma AtLayerIs(su: TpSetup, p: TpProc, r: nat, step: nat, g: TpState, layer: nat, hidden: seq<Vec>)
    requires LayerReady(su, g, layer, |hidden|) && RankAtLayer(su, p, r, step, g, layer, hidden)
    ensures RankSumsAttention(su, p, r, step, g, layer, hidden)
  {
    hide SumAcross, ThenMlp, FullRows, Splittable, AfterHalf, PartsAt, AtLayer, ShardCache, AfterAttending, LayerFits, Attend, LinearAll,
      NormAll, ShardBlock, ShardShape;
    LocalLayer(su, r, g, layer, hidden);
    AttentionTurn(su, r, step, RankState(su, g, r), layer, hidden);
  }

  lemma AllAtLayerIs(su: TpSetup, procs: seq<TpProc>, step: nat, g: TpState, layer: nat, hidden: seq<Vec>)
    requires LayerReady(su, g, layer, |hidden|) && AllAtLayer(su, procs, step, g, layer, hidden)
    ensures AllSumming(su, procs, g.sequence, PartsAt(su, g, layer, hidden), ThenMlps(su, step, AfterHalf(su, g, layer, hidden), layer, hidden))
  {
    hide SumAcross, AtLayer, RankState, Splittable, FullRows, PartsAt, ThenMlps, AfterHalf, Summing;
    forall r | 0 <= r < su.size ensures RankSumsAttention(su, procs[r], r, step, g, layer, hidden) {
      AtLayerIs(su, procs[r], r, step, g, layer, hidden);
    }
  }

  lemma AtMlpIs(su: TpSetup, p: TpProc, r: nat, step: nat, g: TpState, layer: nat, hidden: seq<Vec>)
    requires RankAtMlp(su, p, r, step, g, layer, hidden)
    ensures Summing(su, p, r, g.sequence, MlpPartsAt(su, layer, hidden), ThenNextLayers(su, step, g.(sequence := g.sequence + 1), layer, hidden))
  {
    hide SumAcross, ThenNextLayer, NormAll, LinearAll, GatedAll, ShardCache, Rows, Columns;
  }

  lemma AllAtMlpIs(su: TpSetup, procs: seq<TpProc>, step: nat, g: TpState, layer: nat, hidden: seq<Vec>)
    requires su.size > 0 && AllAtMlp(su, procs, step, g, layer, hidden)
    ensures AllSumming(su, procs, g.sequence, MlpPartsAt(su, layer, hidden),
                       ThenNextLayers(su, step, g.(sequence := g.sequence + 1), layer, hidden))
  {
    hide AtMlp, RankState, MlpPartsAt, ThenNextLayers, Summing;
    forall r | 0 <= r < su.size
      ensures Summing(su, procs[r], r, g.sequence, MlpPartsAt(su, layer, hidden), ThenNextLayers(su, step, g.(sequence := g.sequence + 1), layer, hidden))
    {
      AtMlpIs(su, procs[r], r, step, g, layer, hidden);
    }
  }

  lemma SummingRuns(su: TpSetup, procs: seq<TpProc>, sequence: nat, parts: seq<seq<Vec>>, n: nat, ks: seq<seq<Vec> -> TpProc>) returns (end: seq<TpProc>)
    requires Splittable(su) && AllSumming(su, procs, sequence, parts, ks) && sequence < MAX_SEQUENCES && SameGrid(parts, n, su.width)
    ensures ReachesWith(procs, end, SumFrames(su)) && |end| == su.size
    ensures forall r :: 0 <= r < su.size ==> end[r] == ks[r](SumRows(parts, n, su.width))
  {
    hide ReachesWith, SumAcross, SumRows, SameGrid, HeadsDivide, ShardableBlock;
    end := AllReduceRuns(su, procs, sequence, parts, n, ks);
  }

  lemma MlpRuns(su: TpSetup, procs: seq<TpProc>, step: nat, g: TpState, layer: nat, hidden: seq<Vec>) returns (end: seq<TpProc>)
    requires Splittable(su) && g.sequence < MAX_SEQUENCES && AllAtMlp(su, procs, step, g, layer, hidden)
    ensures ReachesWith(procs, end, SumFrames(su))
    ensures AllAtLayer(su, end, step, g.(sequence := g.sequence + 1), layer + 1, AddAll(hidden, MlpOutput(su, layer, hidden)))
  {
    MlpPartsSum(su, layer, hidden);
    AllAtMlpIs(su, procs, step, g, layer, hidden);
    hide AtMlp, AtLayer, MlpPartsAt, MlpOutput, SumRows, SameGrid, ReachesWith, RankState, AddAll, Splittable, AllSumming;
    end := SummingRuns(su, procs, g.sequence, MlpPartsAt(su, layer, hidden), |hidden|,
                       ThenNextLayers(su, step, g.(sequence := g.sequence + 1), layer, hidden));
  }

  lemma AttentionRuns(su: TpSetup, procs: seq<TpProc>, step: nat, g: TpState, layer: nat, hidden: seq<Vec>) returns (end: seq<TpProc>)
    requires LayerReady(su, g, layer, |hidden|) && AllAtLayer(su, procs, step, g, layer, hidden)
    ensures ReachesWith(procs, end, SumFrames(su))
    ensures AllAtMlp(su, end, step, AfterHalf(su, g, layer, hidden), layer, AddAll(hidden, AttentionOutput(su, g, layer, hidden)))
  {
    PartsSum(su, g, layer, hidden);
    AllAtLayerIs(su, procs, step, g, layer, hidden);
    hide AtMlp, AtLayer, PartsAt, AttentionOutput, SumRows, SameGrid, ReachesWith, RankState, AddAll, Splittable, AllSumming, AfterHalf, FullRows;
    end := SummingRuns(su, procs, g.sequence, PartsAt(su, g, layer, hidden), |hidden|,
                       ThenMlps(su, step, AfterHalf(su, g, layer, hidden), layer, hidden));
  }

  /** What the monolithic block puts out. */
  ghost function LayerOutput(su: TpSetup, g: TpState, layer: nat, hidden: seq<Vec>): (ys: seq<Vec>)
    requires LayerReady(su, g, layer, |hidden|)
    ensures |ys| == |hidden|
  {
    RunBlock(su.engine.kern, su.engine.shape, su.engine.model.blocks[layer], hidden, g.position, g.cache.layers[layer])
  }

  /** The two residual additions around the summed parts are the block of the monolithic model. */
  lemma HalvesAreBlock(su: TpSetup, g: TpState, layer: nat, hidden: seq<Vec>)
    requires LayerReady(su, g, layer, |hidden|)
    ensures var middle := AddAll(hidden, AttentionOutput(su, g, layer, hidden));
            AddAll(middle, MlpOutput(su, layer, middle)) == LayerOutput(su, g, layer, hidden)
  {
    hide Attend, Add, Linear, Gated, Norm, Splittable, FullRows;
  }

  /** All ranks are past the layer, with the hidden states and the cache of the monolithic block. */
  ghost predicate PastLayer(su: TpSetup, procs: seq<TpProc>, step: nat, g: TpState, layer: nat, hidden: seq<Vec>)
    requires LayerReady(su, g, layer, |hidden|)
  {
    AllAtLayer(su, procs, step, AfterLayer(su, g, layer, hidden), layer + 1, LayerOutput(su, g, layer, hidden))
  }

  lemma LayerRuns(su: TpSetup, procs: seq<TpProc>, step: nat, g: TpState, layer: nat, hidden: seq<Vec>) returns (end: seq<TpProc>)
    requires LayerReady(su, g, layer, |hidden|) && AllAtLayer(su, procs, step, g, layer, hidden)
    ensures ReachesWith(procs, end, 2 * SumFrames(su)) && PastLayer(su, end, step, g, layer, hidden)
  {
    hide AllAtLayer, AllAtMlp, ReachesWith, AddAll, AttentionOutput, MlpOutput, LayerOutput, Splittable, FullRows, BlockCache;
    HalvesAreBlock(su, g, layer, hidden);
    var mid := AttentionRuns(su, procs, step, g, layer, hidden);
    end := MlpRuns(su, mid, step, AfterHalf(su, g, layer, hidden), layer, AddAll(hidden, AttentionOutput(su, g, layer, hidden)));
    ThenWith(procs, mid, end, SumFrames(su), SumFrames(su));
  }

  // ---- all layers ----

  ghost predicate LayersReady(su: TpSetup, g: TpState, layer: nat, n: nat) {
    && Splittable(su) && layer <= |su.engine.model.blocks| == |g.cache.layers|
    && Aligned(g.cache.layers[layer..], g.position)
    && (forall l :: 0 <= l < |g.cache.layers| ==> FullRows(g.cache.layers[l], su.engine.shape.kvHeads))
    && g.position + n <= g.cache.capacity
    && g.sequence + 2 * (|su.engine.model.blocks| - layer) <= MAX_SEQUENCES
  }

  ghost function LayersOutput(su: TpSetup, g: TpState, layer: nat, hidden: seq<Vec>): (ys: seq<Vec>)
    requires LayersReady(su, g, layer, |hidden|)
    ensures |ys| == |hidden|
  {
    RunBlocks(su.engine.kern, su.engine.shape, su.engine.model.blocks[layer..], hidden, g.position, g.cache.layers[layer..])
  }

  ghost function AfterLayers(su: TpSetup, g: TpState, layer: nat, hidden: seq<Vec>): TpState
    requires LayersReady(su, g, layer, |hidden|)
  {
    g.(cache := g.cache.(layers := g.cache.layers[..layer] + BlockCaches(su.engine.kern, su.engine.shape, su.engine.model.blocks[layer..], hidden,
                                                                         g.position, g.cache.layers[layer..])),
       sequence := g.sequence + 2 * (|su.engine.model.blocks| - layer))
  }

  /** One layer less to go. */
  lemma LayersUnfold(su: TpSetup, g: TpState, layer: nat, hidden: seq<Vec>)
    requires LayersReady(su, g, layer, |hidden|) && layer < |su.engine.model.blocks|
    ensures LayerReady(su, g, layer, |hidden|)
    ensures LayersReady(su, AfterLayer(su, g, layer, hidden), layer + 1, |hidden|)
    ensures var g', ys := AfterLayer(su, g, layer, hidden), LayerOutput(su, g, layer, hidden);
            && LayersOutput(su, g, layer, hidden) == LayersOutput(su, g', layer + 1, ys)
            && AfterLayers(su, g, layer, hidden) == AfterLayers(su, g', layer + 1, ys)
  {
    var e, b, c := su.engine, su.engine.model.blocks[layer], g.cache.layers[layer];
    assert g.cache.layers[layer..][0] == c && su.engine.model.blocks[layer..][0] == b;
    assert ShardableBlock(su, b);
    AppendOfShard(e.kern, e.shape, b, su.size, 0, AttentionInput(su, layer, hidden), g.position, c);
    hide RunBlock, AppendRows, FullRows, HeadsDivide, ShardableBlock;
    var g' := AfterLayer(su, g, layer, hidden);
    assert g'.cache.layers[layer + 1..] == g.cache.layers[layer..][1..] && e.model.blocks[layer..][1..] == e.model.blocks[layer + 1..];
    assert g'.cache.layers[..layer + 1] == g.cache.layers[..layer] + [g'.cache.layers[layer]];
  }

  ghost predicate PastLayers(su: TpSetup, procs: seq<TpProc>, step: nat, g: TpState, layer: nat, hidden: seq<Vec>)
    requires LayersReady(su, g, layer, |hidden|)
  {
    AllAtLayer(su, procs, step, AfterLayers(su, g, layer, hidden), |su.engine.model.blocks|, LayersOutput(su, g, layer, hidden))
  }

  lemma {:induction false} LayersRun(su: TpSetup, procs: seq<TpProc>, step: nat, g: TpState, layer: nat, hidden: seq<Vec>) returns (end: seq<TpProc>)
    requires LayersReady(su, g, layer, |hidden|) && AllAtLayer(su, procs, step, g, layer, hidden)
    ensures ReachesWith(procs, end, LayersFrames(su, |su.engine.model.blocks| - layer)) && PastLayers(su, end, step, g, layer, hidden)
    decreases |su.engine.model.blocks| - layer
  {
    if layer == |su.engine.model.blocks| {
      hide AllAtLayer, ReachesWith, Splittable, FullRows, Aligned;
      assert g.cache.layers[..layer] + [] == g.cache.layers;
      end := procs;
      WithNone(procs);
    } else {
      hide AllAtLayer, ReachesWith, LayersReady, LayerReady, AfterLayer, LayersOutput, AfterLayers, LayerOutput;
      LayersUnfold(su, g, layer, hidden);
      var mid := LayerRuns(su, procs, step, g, layer, hidden);
      end := LayersRun(su, mid, step, AfterLayer(su, g, layer, hidden), layer + 1, LayerOutput(su, g, layer, hidden));
      ThenWith(procs, mid, end, 2 * SumFrames(su), LayersFrames(su, |su.engine.model.blocks| - layer - 1));
    }
  }

  // ---- the embedding ----

  /** All ranks are at the top of the loop; `g` has the whole cache. */
  ghost predicate AllAtTop(su: TpSetup, procs: seq<TpProc>, step: nat, g: TpState) {
    && step < su.request.effective && |procs| == su.size
    && forall r :: 0 <= r < su.size ==> RankAtTop(su, procs[r], r, step, g)
  }

  /** A forward of `g.input` is possible. */
  ghost predicate ForwardReady(su: TpSetup, g: TpState) {
    && ValidTp(su) && ValidCache(su.engine.model, g.cache) && g.position == Length(g.cache)
    && g.input != [] && Known(su.engine.model, g.input) && g.position + |g.input| <= g.cache.capacity
    && (forall l :: 0 <= l < |g.cache.layers| ==> FullRows(g.cache.layers[l], su.engine.shape.kvHeads))
    && g.sequence + PerForward(su) <= MAX_SEQUENCES
  }

  ghost function EmbedParts(su: TpSetup, input: seq<nat>): (parts: seq<seq<Vec>>)
    requires su.size > 0 && forall r :: 0 <= r < su.size ==> Rows(su.engine.model.embeddings, su.size, r) != []
    ensures |parts| == su.size
  {
    seq(su.size, r requires 0 <= r < su.size => MaskedRows(su, r, input))
  }

  /** Every rank owns `m` rows of the vocabulary. */
  ghost predicate Vocabulary(su: TpSetup, m: nat) {
    && su.size > 0 && m > 0 && |su.engine.model.embeddings| == su.size * m == |su.engine.model.head|
    && |su.engine.model.embeddings| / su.size == m && AllWide(su.engine.model.embeddings, su.width)
    && forall r :: 0 <= r < su.size ==> |Rows(su.engine.model.embeddings, su.size, r)| == m
  }

  lemma VocabularySplits(su: TpSetup) returns (m: nat)
    requires ValidTp(su)
    ensures Vocabulary(su, m)
  {
    m := |su.engine.model.embeddings| / su.size;
    DivExact(|su.engine.model.embeddings|, su.size);
    forall r | 0 <= r < su.size ensures |Rows(su.engine.model.embeddings, su.size, r)| == m {
      RowsAre(su.engine.model.embeddings, su.size, m, r);
    }
  }

  lemma EmbedPartIs(su: TpSetup, m: nat, input: seq<nat>, r: nat)
    requires Vocabulary(su, m) && Known(su.engine.model, input) && r < su.size
    ensures var part := EmbedParts(su, input)[r];
            && |part| == |input| && AllWide(part, su.width)
            && forall i :: 0 <= i < |input| ==> part[i] == MaskedRow(Rows(su.engine.model.embeddings, su.size, r), r * m, input[i])
  {
    hide Rows, MaskedRow;
    forall i | 0 <= i < |input| ensures |EmbedParts(su, input)[r][i]| == su.width {
      var owner, at := IndexOf(input[i], su.size, m);
      RowsFrom(su.engine.model.embeddings, su.size, m, r, r * m);
      MaskedRowIs(su.engine.model.embeddings, Rows(su.engine.model.embeddings, su.size, r), m, su.width, owner, input[i], r, r * m);
    }
  }

  lemma EmbedAt(su: TpSetup, m: nat, input: seq<nat>, i: nat)
    requires Vocabulary(su, m) && Known(su.engine.model, input) && i < |input|
    requires SameGrid(EmbedParts(su, input), |input|, su.width)
    ensures RankSum(Column(EmbedParts(su, input), i), su.width) == su.engine.model.embeddings[input[i]]
  {
    hide Rows, MaskedRow, MaskedRows, RankSum;
    forall r | 0 <= r < su.size
      ensures Column(EmbedParts(su, input), i)[r] == MaskedRow(Rows(su.engine.model.embeddings, su.size, r), r * m, input[i])
    {
      EmbedPartIs(su, m, input, r);
    }
    hide EmbedParts;
    MaskedRowsSum(su.engine.model.embeddings, su.size, m, su.width, input[i], Column(EmbedParts(su, input), i));
  }

  lemma EmbedSums(su: TpSetup, input: seq<nat>)
    requires ValidTp(su) && Known(su.engine.model, input)
    ensures forall r :: 0 <= r < su.size ==> Rows(su.engine.model.embeddings, su.size, r) != []
    ensures SameGrid(EmbedParts(su, input), |input|, su.width)
    ensures SumRows(EmbedParts(su, input), |input|, su.width) == Embed(su.engine.model, input)
  {
    hide Rows, ValidTp, EmbedParts, RankSum;
    var m := VocabularySplits(su);
    forall r | 0 <= r < su.size ensures |EmbedParts(su, input)[r]| == |input| && AllWide(EmbedParts(su, input)[r], su.width) {
      EmbedPartIs(su, m, input, r);
    }
    forall i | 0 <= i < |input| ensures RankSum(Column(EmbedParts(su, input), i), su.width) == su.engine.model.embeddings[input[i]] {
      EmbedAt(su, m, input, i);
    }
  }

  ghost function ThenAllBlocks(su: TpSetup, step: nat, g: TpState): (ks: seq<seq<Vec> -> TpProc>)
    requires step < su.request.effective
    ensures |ks| == su.size
  {
    seq(su.size, r requires 0 <= r < su.size => ThenBlocks(su, r, step, RankState(su, g, r)))
  }

  lemma ShardCacheLength(su: TpSetup, c: Cache, r: nat)
    requires su.size > 0
    ensures Length(ShardCache(su, c, r)) == Length(c) && |ShardCache(su, c, r).layers| == |c.layers|
    ensures ShardCache(su, c, r).capacity == c.capacity
  {}

  lemma RankIsReady(su: TpSetup, r: nat, g: TpState)
    requires ForwardReady(su, g) && r < su.size && Rows(su.engine.model.embeddings, su.size, r) != []
    ensures InputFits(su, r, RankState(su, g, r))
  {
    ShardCacheLength(su, g.cache, r);
    hide ShardCache, Length, Rows, ValidTp, FullRows, PerForward, Aligned, Known;
  }

  ghost predicate RankAtTop(su: TpSetup, p: TpProc, r: nat, step: nat, g: TpState) {
    r < su.size && step < su.request.effective && p == TpStep(su, r, step, RankState(su, g, r))
  }

  ghost predicate RankEmbeds(su: TpSetup, p: TpProc, r: nat, step: nat, g: TpState)
    requires ForwardReady(su, g) && step < su.request.effective
  {
    && (forall q :: 0 <= q < su.size ==> Rows(su.engine.model.embeddings, su.size, q) != [])
    && Summing(su, p, r, g.sequence, EmbedParts(su, g.input), ThenAllBlocks(su, step, g.(sequence := g.sequence + 1)))
  }

  lemma AtTopIs(su: TpSetup, p: TpProc, r: nat, step: nat, g: TpState)
    requires ForwardReady(su, g) && RankAtTop(su, p, r, step, g)
    ensures RankEmbeds(su, p, r, step, g)
  {
    hide ShardCache, Length, SumAcross, ThenBlocks, MaskedRows, Rows, FullRows, PerForward, Aligned, TpStep, Known, InputFits, Splittable, SameGrid, SumRows;
    EmbedSums(su, g.input);
    RankIsReady(su, r, g);
    TopTurn(su, r, step, RankState(su, g, r));
  }

  lemma ReadyIsValid(su: TpSetup, g: TpState)
    requires ForwardReady(su, g)
    ensures ValidTp(su) && su.size > 0 && Known(su.engine.model, g.input)
  {}

  /** The embedding of all ranks together is the embedding of the whole vocabulary. */
  ghost predicate PastEmbedding(su: TpSetup, procs: seq<TpProc>, step: nat, g: TpState)
    requires ForwardReady(su, g)
  {
    AllAtLayer(su, procs, step, g.(sequence := g.sequence + 1), 0, Embed(su.engine.model, g.input))
  }

  lemma EmbeddingRuns(su: TpSetup, procs: seq<TpProc>, step: nat, g: TpState) returns (end: seq<TpProc>)
    requires ForwardReady(su, g) && AllAtTop(su, procs, step, g)
    ensures ReachesWith(procs, end, SumFrames(su)) && PastEmbedding(su, end, step, g)
  {
    hide Rows, SumRows, SameGrid, Embed, EmbedParts, FullRows, Aligned, TpStep, AtLayer, RankState, ReachesWith, Splittable, ValidEngine, ValidRequest,
      Summing;
    ReadyIsValid(su, g);
    EmbedSums(su, g.input);
    forall r | 0 <= r < su.size ensures RankEmbeds(su, procs[r], r, step, g) {
      AtTopIs(su, procs[r], r, step, g);
    }
    hide PerForward;
    end := SummingRuns(su, procs, g.sequence, EmbedParts(su, g.input), |g.input|, ThenAllBlocks(su, step, g.(sequence := g.sequence + 1)));
  }

  // ---- the logits ----

  ghost predicate AllDeciding(su: TpSetup, procs: seq<TpProc>, step: nat, g: TpState, logits: Vec) {
    && step < su.request.effective && |procs| == su.size
    && forall r :: 0 <= r < su.size ==> procs[r] == AtDecision(su, r, step, RankState(su, g, r), logits)
  }

  ghost function LastHidden(su: TpSetup, hidden: seq<Vec>): Vec
    requires hidden != []
  {
    Norm(su.engine.kern, su.engine.model.finalNorm, hidden[|hidden| - 1])
  }

  ghost function LogitParts(su: TpSetup, hidden: seq<Vec>): (parts: seq<Vec>)
    requires hidden != [] && su.size > 0
    ensures |parts| == su.size
  {
    seq(su.size, r requires 0 <= r < su.size => Linear(Rows(su.engine.model.head, su.size, r), LastHidden(su, hidden)))
  }

  lemma GatherResult(su: TpSetup, sequence: nat, hidden: seq<Vec>, r: nat)
    requires ValidTp(su) && hidden != [] && r < su.size && sequence < MAX_SEQUENCES
    ensures Valid(RealWorld(su), AllGatherCall, sequence, LogitParts(su, hidden))
    ensures Spec(RealWorld(su), AllGatherCall, sequence, LogitParts(su, hidden), r).tensor
            == Some(Finish(su.engine.kern, su.engine.model, hidden))
  {
    var m := VocabularySplits(su);
    hide Rows;
    GatheredLogits(su.engine.model.head, LastHidden(su, hidden), su.size, m, LogitParts(su, hidden));
  }

  ghost function ThenAllLogits(su: TpSetup, step: nat, g: TpState): (ks: seq<Output<real> -> TpProc>)
    requires step < su.request.effective && su.size > 0
    ensures |ks| == su.size
  {
    seq(su.size, r requires 0 <= r < su.size => ThenLogits(su, r, step, RankState(su, g, r)))
  }

  lemma LogitsCalling(su: TpSetup, procs: seq<TpProc>, step: nat, g: TpState, hidden: seq<Vec>)
    requires su.size > 0 && hidden != [] && AllAtLayer(su, procs, step, g, |su.engine.model.blocks|, hidden)
    ensures Calling(RealWorld(su), AllGatherCall, g.sequence, LogitParts(su, hidden), procs, ThenAllLogits(su, step, g.(sequence := g.sequence + 1)))
  {
    hide CallProc, ShardCache, ThenLogits, Rows, Norm, Linear, AtLayer;
    forall r | 0 <= r < su.size
      ensures procs[r] == CallProc(RealWorld(su), AllGatherCall, r, g.sequence, LogitParts(su, hidden)[r],
                                   ThenAllLogits(su, step, g.(sequence := g.sequence + 1))[r])
    {
      assert RankAtLayer(su, procs[r], r, step, g, |su.engine.model.blocks|, hidden);
      LogitsTurn(su, r, step, RankState(su, g, r), hidden);
    }
  }

  lemma LogitsRun(su: TpSetup, procs: seq<TpProc>, step: nat, g: TpState, hidden: seq<Vec>) returns (end: seq<TpProc>)
    requires ValidTp(su) && hidden != [] && g.sequence < MAX_SEQUENCES
    requires AllAtLayer(su, procs, step, g, |su.engine.model.blocks|, hidden)
    ensures ReachesWith(procs, end, GatherFrames(su))
    ensures AllDeciding(su, end, step, g.(sequence := g.sequence + 1), Finish(su.engine.kern, su.engine.model, hidden))
  {
    LogitsCalling(su, procs, step, g, hidden);
    GatherResult(su, g.sequence, hidden, 0);
    forall r | 0 <= r < su.size
      ensures Spec(RealWorld(su), AllGatherCall, g.sequence, LogitParts(su, hidden), r).tensor == Some(Finish(su.engine.kern, su.engine.model, hidden))
    {
      GatherResult(su, g.sequence, hidden, r);
    }
    assert |Finish(su.engine.kern, su.engine.model, hidden)| == |su.engine.model.head|;
    hide AllAtLayer, Calling, Valid, Spec, LogitParts, Finish, ReachesWith, RankState, AtDecision, PerForward, Splittable, ValidEngine;
    end := CallCompletes(RealWorld(su), AllGatherCall, g.sequence, LogitParts(su, hidden), procs, ThenAllLogits(su, step, g.(sequence := g.sequence + 1)));
  }

  // ---- the whole forward ----

  /** The state of a single process after the forward, with the collectives counted. */
  ghost function AfterForward(su: TpSetup, g: TpState): TpState
    requires ForwardReady(su, g)
  {
    g.(cache := g.cache.(layers := BlockCaches(su.engine.kern, su.engine.shape, su.engine.model.blocks, Embed(su.engine.model, g.input),
                                               g.position, g.cache.layers)),
       sequence := g.sequence + PerForward(su))
  }

  ghost function LogitsOf(su: TpSetup, g: TpState): Vec
    requires ForwardReady(su, g)
  {
    Finish(su.engine.kern, su.engine.model,
           RunBlocks(su.engine.kern, su.engine.shape, su.engine.model.blocks, Embed(su.engine.model, g.input), g.position, g.cache.layers))
  }

  /** These are the logits and the cache of the monolithic forward. */
  lemma ForwardIs(su: TpSetup, g: TpState)
    requires ForwardReady(su, g)
    ensures Forward(su.engine.kern, su.engine.shape, su.engine.model, g.input, Length(g.cache), g.cache)
            == Ok((LogitsOf(su, g), AfterForward(su, g).cache))
  {
    hide RunBlocks, BlockCaches, Finish, Splittable, FullRows;
  }

  lemma LayersFromStart(su: TpSetup, g: TpState)
    requires ForwardReady(su, g)
    ensures var g1, xs := g.(sequence := g.sequence + 1), Embed(su.engine.model, g.input);
            && LayersReady(su, g1, 0, |xs|) && xs != [] && AfterLayers(su, g1, 0, xs).sequence < MAX_SEQUENCES
            && LogitsOf(su, g) == Finish(su.engine.kern, su.engine.model, LayersOutput(su, g1, 0, xs))
            && AfterForward(su, g) == (var g2 := AfterLayers(su, g1, 0, xs); g2.(sequence := g2.sequence + 1))
  {
    hide RunBlocks, BlockCaches, Finish, Splittable, FullRows, Embed, ValidEngine, ValidRequest, Known, Aligned, Length;
    assert su.engine.model.blocks[0..] == su.engine.model.blocks && g.cache.layers[0..] == g.cache.layers;
  }

  /** Every rank has the logits of the monolithic forward and its part of the cache after it. */
  ghost predicate PastForward(su: TpSetup, procs: seq<TpProc>, step: nat, g: TpState)
    requires ForwardReady(su, g)
  {
    AllDeciding(su, procs, step, AfterForward(su, g), LogitsOf(su, g))
  }

  /** Tensor-parallel forward: every rank ends with the logits of the monolithic forward. */
  lemma ForwardRuns(su: TpSetup, procs: seq<TpProc>, step: nat, g: TpState) returns (end: seq<TpProc>)
    requires ForwardReady(su, g) && AllAtTop(su, procs, step, g)
    ensures ReachesWith(procs, end, ForwardFrames(su)) && PastForward(su, end, step, g)
  {
    hide ForwardReady, ValidTp, AllAtTop, AllAtLayer, AllDeciding, ReachesWith, AfterLayers, LayersOutput, Finish, AfterForward, LogitsOf, LayersReady;
    ReadyIsValid(su, g);
    LayersFromStart(su, g);
    var g1, xs := g.(sequence := g.sequence + 1), Embed(su.engine.model, g.input);
    hide Embed;
    var a := EmbeddingRuns(su, procs, step, g);
    var b := LayersRun(su, a, step, g1, 0, xs);
    end := LogitsRun(su, b, step, AfterLayers(su, g1, 0, xs), LayersOutput(su, g1, 0, xs));
    ThenWith(procs, a, b, SumFrames(su), LayersFrames(su, |su.engine.model.blocks|));
    ThenWith(procs, b, end, SumFrames(su) + LayersFrames(su, |su.engine.model.blocks|), GatherFrames(su));
  }

  // ---- the decision ----

  ghost predicate AllConcluding(su: TpSetup, procs: seq<TpProc>, step: nat, g: TpState, decision: TokenDecision) {
    && step < su.request.effective && |procs| == su.size
    && forall r :: 0 <= r < su.size ==> procs[r] == Conclude(su, r, step, RankState(su, g, r), decision)
  }

  /** Rank 0 hands its decision to the ranks `peer..`. */
  lemma {:induction false} AnnounceRuns(su: TpSetup, procs: seq<TpProc>, step: nat, g: TpState, peer: nat, decision: TokenDecision) returns (end: seq<TpProc>)
    requires step < su.request.effective && |procs| == su.size && 1 <= peer <= su.size
    requires procs[0] == Announce(su, step, peer, decision, RankState(su, g, 0))
    requires forall r :: peer <= r < su.size ==> procs[r] == AwaitDecision(su, r, step, RankState(su, g, r))
    requires forall r :: 0 < r < peer ==> procs[r] == Conclude(su, r, step, RankState(su, g, r), decision)
    ensures ReachesWith(procs, end, su.size - peer) && AllConcluding(su, end, step, g, decision)
    decreases su.size - peer
  {
    hide Conclude, ReachesWith, RankState;
    if peer == su.size {
      end := procs;
      WithNone(procs);
    } else {
      end := AnnounceRuns(su, Hand(procs, 0, peer), step, g, peer + 1, decision);
      OneMoreWith(procs, 0, peer, end, su.size - peer - 1);
    }
  }

  lemma DecisionRuns(su: TpSetup, procs: seq<TpProc>, step: nat, g: TpState, logits: Vec) returns (end: seq<TpProc>)
    requires su.size > 0 && AllDeciding(su, procs, step, g, logits)
    ensures ReachesWith(procs, end, su.size - 1) && AllConcluding(su, end, step, g, DecisionFor(su.request, step, su.engine.pick(logits)))
  {
    hide Conclude, ReachesWith, RankState, Announce, AwaitDecision, DecisionFor;
    end := AnnounceRuns(su, procs, step, g, 1, DecisionFor(su.request, step, su.engine.pick(logits)));
  }

  // ---- the whole loop ----

  ghost predicate LoopReady(su: TpSetup, g: TpState) {
    && ValidTp(su) && ValidCache(su.engine.model, g.cache) && g.cache.capacity == CacheCapacity(su.request)
    && (forall l :: 0 <= l < |g.cache.layers| ==> FullRows(g.cache.layers[l], su.engine.shape.kvHeads))
    && |g.tokens| < su.request.effective && g.input == InputOf(su.request, g.tokens) && Known(su.engine.model, g.input)
    && g.position == Length(g.cache) && g.position + |g.input| == |su.request.prompt| + |g.tokens|
    && g.sequence == |g.tokens| * PerForward(su)
  }

  lemma LoopIsReady(su: TpSetup, g: TpState)
    requires LoopReady(su, g)
    ensures ForwardReady(su, g) && su.size > 0
    ensures AfterForward(su, g).sequence == (|g.tokens| + 1) * PerForward(su)
  {
    MulSucc(|g.tokens|, PerForward(su));
    MulLe(|g.tokens| + 1, su.request.effective, PerForward(su));
    hide Splittable, FullRows, PerForward, BlockCaches, Aligned;
  }

  lemma BlockKeepsRows(su: TpSetup, l: nat, xs: seq<Vec>, position: nat, c: LayerCache)
    requires Splittable(su) && l < |su.engine.model.blocks| && FullRows(c, su.engine.shape.kvHeads)
    ensures FullRows(BlockCache(su.engine.kern, su.engine.shape, su.engine.model.blocks[l], xs, position, c), su.engine.shape.kvHeads)
  {
    var e, b := su.engine, su.engine.model.blocks[l];
    assert ShardableBlock(su, b);
    hide FullRows, AppendRows, HeadsDivide, NormAll;
    AppendOfShard(e.kern, e.shape, b, su.size, 0, NormAll(e.kern, b.inputNorm, xs), position, c);
  }

  lemma {:induction false} CachesKeepRows(su: TpSetup, l: nat, xs: seq<Vec>, position: nat, caches: seq<LayerCache>)
    requires Splittable(su) && l <= |su.engine.model.blocks| == l + |caches| && Aligned(caches, position)
    requires forall i :: 0 <= i < |caches| ==> FullRows(caches[i], su.engine.shape.kvHeads)
    ensures var caches' := BlockCaches(su.engine.kern, su.engine.shape, su.engine.model.blocks[l..], xs, position, caches);
            forall i :: 0 <= i < |caches'| ==> FullRows(caches'[i], su.engine.shape.kvHeads)
    decreases |caches|
  {
    hide FullRows, BlockCache, RunBlock, Splittable;
    if caches != [] {
      var e, blocks := su.engine, su.engine.model.blocks[l..];
      BlockKeepsRows(su, l, xs, position, caches[0]);
      assert blocks[0] == e.model.blocks[l] && blocks[1..] == e.model.blocks[l + 1..];
      var ys := RunBlock(e.kern, e.shape, blocks[0], xs, position, caches[0]);
      CachesKeepRows(su, l + 1, ys, position, caches[1..]);
      assert BlockCaches(e.kern, e.shape, blocks, xs, position, caches)
             == [BlockCache(e.kern, e.shape, blocks[0], xs, position, caches[0])]
                + BlockCaches(e.kern, e.shape, blocks[1..], ys, position, caches[1..]);
    }
  }

  lemma ForwardKeepsRows(su: TpSetup, g: TpState)
    requires ForwardReady(su, g)
    ensures forall l :: 0 <= l < |AfterForward(su, g).cache.layers| ==> FullRows(AfterForward(su, g).cache.layers[l], su.engine.shape.kvHeads)
  {
    hide FullRows, Splittable, BlockCaches, PerForward;
    var e, xs, layers := su.engine, Embed(su.engine.model, g.input), g.cache.layers;
    assert e.model.blocks[0..] == e.model.blocks;
    CachesKeepRows(su, 0, xs, g.position, layers);
    assert AfterForward(su, g).cache.layers == BlockCaches(e.kern, e.shape, e.model.blocks[0..], xs, g.position, layers);
  }

  ghost function Rest(su: TpSetup, g: TpState): Result<Generated, ForwardError>
    requires ValidCache(su.engine.model, g.cache)
  {
    Greedy(su.engine, su.request, g.input, g.cache, g.tokens)
  }

  /** Every rank reports the same tokens, stop reason and number of collectives, and its own heads of the cache. */
  ghost function ReportOf(su: TpSetup, gen: Generated, r: nat): TpReport
    requires su.size > 0
  {
    TpReport(gen.tokens, gen.reason, ShardCache(su, gen.cache, r), Forwards(gen) * PerForward(su))
  }

  /** The state of a single process at the top of the next step. */
  ghost function NextTop(su: TpSetup, g: TpState): TpState
    requires ForwardReady(su, g)
  {
    var token := su.engine.pick(LogitsOf(su, g));
    TpState([token], g.position + |g.input|, g.tokens + [token], AfterForward(su, g).cache, AfterForward(su, g).sequence)
  }

  /** One turn of the monolithic loop. */
  lemma RestUnfolds(su: TpSetup, g: TpState)
    requires LoopReady(su, g)
    ensures ForwardReady(su, g)
    ensures var q, token, after := su.request, su.engine.pick(LogitsOf(su, g)), AfterForward(su, g);
            && ValidCache(su.engine.model, after.cache)
            && (if token == q.eos then Rest(su, g) == Ok(Generated(g.tokens, Eos, after.cache))
                else if |g.tokens| + 1 >= q.effective then Rest(su, g) == Ok(Generated(g.tokens + [token], LimitReason(q), after.cache))
                else LoopReady(su, NextTop(su, g)) && Rest(su, g) == Rest(su, NextTop(su, g)))
  {
    hide Splittable, FullRows, AfterForward, LogitsOf, Greedy, Forward, ValidEngine, ValidRequest, PerForward, Aligned;
    LoopIsReady(su, g);
    ForwardIs(su, g);
    ForwardKeepsRows(su, g);
    GreedyUnfolds(su.engine, su.request, g.input, g.cache, g.tokens);
  }

  ghost predicate AllReporting(su: TpSetup, procs: seq<TpProc>, gen: Generated) {
    && |procs| == su.size
    && forall r :: 0 <= r < su.size ==> procs[r] == BarrierProc(su.size, r, 1, Done(ReportOf(su, gen, r)))
  }

  /** What the decision of a step does on every rank. */
  lemma ConcludeIs(su: TpSetup, procs: seq<TpProc>, g: TpState)
    requires LoopReady(su, g) && ForwardReady(su, g)
    requires AllConcluding(su, procs, |g.tokens|, AfterForward(su, g), DecisionFor(su.request, |g.tokens|, su.engine.pick(LogitsOf(su, g))))
    requires AfterForward(su, g).sequence == (|g.tokens| + 1) * PerForward(su)
    ensures var q, token, after := su.request, su.engine.pick(LogitsOf(su, g)), AfterForward(su, g);
            if token == q.eos then AllReporting(su, procs, Generated(g.tokens, Eos, after.cache))
            else if |g.tokens| + 1 >= q.effective then AllReporting(su, procs, Generated(g.tokens + [token], LimitReason(q), after.cache))
            else AllAtTop(su, procs, |g.tokens| + 1, NextTop(su, g))
  {
    hide LoopReady, ForwardReady, LogitsOf, BarrierProc, TpStep, ShardCache, PerForward, BlockCaches;
  }

  lemma {:induction false} LoopRuns(su: TpSetup, procs: seq<TpProc>, g: TpState) returns (end: seq<TpProc>)
    requires LoopReady(su, g) && AllAtTop(su, procs, |g.tokens|, g)
    ensures Rest(su, g).Ok? && ValidCache(su.engine.model, Rest(su, g).value.cache)
    ensures |g.tokens| < Forwards(Rest(su, g).value) <= su.request.effective
    ensures ReachesWith(procs, end, LoopFrames(su, Forwards(Rest(su, g).value) - |g.tokens|)) && AllReporting(su, end, Rest(su, g).value)
    decreases su.request.effective - |g.tokens|
  {
    hide ForwardReady, ValidTp, AllAtTop, AllDeciding, AllConcluding, AllReporting, ReachesWith, AfterForward, LogitsOf, Rest, Conclude, DecisionFor;
    LoopIsReady(su, g);
    RestUnfolds(su, g);
    var a := ForwardRuns(su, procs, |g.tokens|, g);
    var b := DecisionRuns(su, a, |g.tokens|, AfterForward(su, g), LogitsOf(su, g));
    ThenWith(procs, a, b, ForwardFrames(su), su.size - 1);
    ConcludeIs(su, b, g);
    end := b;
    var token := su.engine.pick(LogitsOf(su, g));
    if token != su.request.eos && |g.tokens| + 1 < su.request.effective {
      end := LoopRuns(su, b, NextTop(su, g));
      ThenWith(procs, b, end, StepFrames(su), LoopFrames(su, Forwards(Rest(su, g).value) - |g.tokens| - 1));
    }
  }

  // ---- the whole run ----

  function Ranks(su: TpSetup): (procs: seq<TpProc>)
    ensures |procs| == su.size
  {
    seq(su.size, r requires 0 <= r < su.size => TpProgram(su, r))
  }

  /** Every rank has returned its report. */
  ghost function Reports(su: TpSetup, gen: Generated): (procs: seq<TpProc>)
    requires su.size > 0
    ensures |procs| == su.size && AllFinished(procs)
    ensures forall r :: 0 <= r < su.size ==> procs[r] == Done(ReportOf(su, gen, r))
  {
    seq(su.size, r requires 0 <= r < su.size => Done(ReportOf(su, gen, r)))
  }

  ghost function FirstTop(su: TpSetup): TpState {
    TpState(su.request.prompt, 0, [], EmptyCache(su.engine.model, CacheCapacity(su.request)), 0)
  }

  lemma FirstIsReady(su: TpSetup)
    requires ValidTp(su)
    ensures LoopReady(su, FirstTop(su))
    ensures forall r :: 0 <= r < su.size ==> RankState(su, FirstTop(su), r) == FirstState(su)
  {
    hide Splittable;
    forall r | 0 <= r < su.size ensures RankState(su, FirstTop(su), r) == FirstState(su) {
      assert RankState(su, FirstTop(su), r).cache.layers == FirstState(su).cache.layers;
    }
  }

  lemma BarriersAround(su: TpSetup, tops: seq<TpProc>, mid: seq<TpProc>, ends: seq<TpProc>, loop: nat)
    requires |tops| == |mid| == |ends| == su.size > 0
    requires forall r :: 0 <= r < su.size ==> tops[r] == TpStep(su, r, 0, FirstState(su))
    requires forall r :: 0 <= r < su.size ==> mid[r] == BarrierProc(su.size, r, 1, ends[r])
    requires ReachesWith(tops, mid, loop)
    ensures ReachesWith(Ranks(su), ends, 4 * (su.size - 1) + loop)
  {
    hide ReachesWith, BarrierProc, TpStep;
    var barrier := 2 * (su.size - 1);
    BarrierRuns(Ranks(su), 0, tops);
    BarrierRuns(mid, 1, ends);
    ThenWith(Ranks(su), tops, mid, barrier, loop);
    ThenWith(Ranks(su), mid, ends, barrier + loop, barrier);
  }

  ghost function FirstTops(su: TpSetup): (tops: seq<TpProc>)
    ensures |tops| == su.size && forall r :: 0 <= r < su.size ==> tops[r] == TpStep(su, r, 0, FirstState(su))
  {
    seq(su.size, r requires 0 <= r < su.size => TpStep(su, r, 0, FirstState(su)))
  }

  /** The reports can be handed over to with exactly so many frames. */
  ghost predicate Deliverable(su: TpSetup, g: Result<Generated, ForwardError>) {
    && su.size > 0 && g.Ok? && ValidCache(su.engine.model, g.value.cache) && 1 <= Forwards(g.value) <= su.request.effective
    && ReachesWith(Ranks(su), Reports(su, g.value), RunFrames(su, g.value))
  }

  lemma LoopStarts(su: TpSetup)
    requires ValidTp(su)
    ensures su.size > 0 && LoopReady(su, FirstTop(su)) && AllAtTop(su, FirstTops(su), 0, FirstTop(su))
    ensures Rest(su, FirstTop(su)) == Generate(su.engine, su.request)
  {
    assert su.size > 0;
    hide BarrierProc, TpStep, RankState, Splittable, Greedy;
    FirstIsReady(su);
  }

  lemma TensorParallelRun(su: TpSetup)
    requires ValidTp(su)
    ensures Deliverable(su, Generate(su.engine, su.request))
  {
    hide ReachesWith, BarrierProc, TpStep, Rest, Generate, ReportOf, LoopReady, LoopFrames, Forwards, AllAtTop, ValidTp;
    LoopStarts(su);
    hide RankState;
    var mid := LoopRuns(su, FirstTops(su), FirstTop(su));
    var g := Rest(su, FirstTop(su)).value;
    BarriersAround(su, FirstTops(su), mid, Reports(su, g), LoopFrames(su, Forwards(g)));
  }

  /** Every schedule ends with the reports of `g`, after the steps of exactly so many frames. */
  ghost predicate Serves(su: TpSetup, cap: Capacity, g: Result<Generated, ForwardError>) {
    && su.size > 0 && g.Ok? && ValidCache(su.engine.model, g.value.cache) && 1 <= Forwards(g.value) <= su.request.effective
    && Settles(cap, Ranks(su), Reports(su, g.value), StepsFor(cap, RunFrames(su, g.value)))
  }

  /** The tensor-parallel run refines single-process generation: under every schedule and every link
  capacity a rank that returns reports the tokens and stop reason of `Generate`, its own heads of the
  cache, and 2 * layers + 2 collectives per forward; no rank can fail or get stuck, every schedule has
  exactly the steps of the frames that `RunFramesIs` counts, and at the end no frame is in flight or set
  aside. */
  lemma TensorParallelSettles(su: TpSetup, cap: Capacity)
    requires ValidTp(su)
    ensures Serves(su, cap, Generate(su.engine, su.request))
  {
    TensorParallelRun(su);
    hide ReachesWith, Settles, Generate, TpProgram, ValidTp, RunFrames;
    var g := Generate(su.engine, su.request).value;
    EverySchedule(cap, Ranks(su), Reports(su, g), RunFrames(su, g));
  }
}
