/** Contiguous layer stages: how the balanced partition cuts the blocks, and that running the stages
one after the other is running all blocks. */
module Partition {
  import opened Options
  import opened Arithmetic
  import opened LinearAlgebra
  import opened Llama

  datatype StageAssignment = StageAssignment(rank: nat, worldSize: nat, layerStart: nat, layerEnd: nat,
                                             ownsEmbeddings: bool, ownsLmHead: bool, duplicatesTiedEmbeddings: bool)

  datatype TopologyError = WorldSizeOutOfRange | MoreRanksThanLayers

  /** The stages cover the layers 0..layers in rank order, without gap or overlap, none empty, and
  their sizes differ by at most one, the larger ones first. */
  ghost predicate BalancedStages(stages: seq<StageAssignment>, layers: nat, worldSize: nat, tied: bool) {
    && |stages| == worldSize >= 2
    && stages[0].layerStart == 0 && stages[worldSize - 1].layerEnd == layers
    && (forall r :: 0 <= r < worldSize ==>
          && stages[r].rank == r && stages[r].worldSize == worldSize
          && stages[r].layerStart < stages[r].layerEnd <= layers
          && (stages[r].ownsEmbeddings <==> r == 0)
          && (stages[r].ownsLmHead <==> r == worldSize - 1)
          && (stages[r].duplicatesTiedEmbeddings <==> r == worldSize - 1 && tied))
    && (forall r :: 0 <= r < worldSize - 1 ==> stages[r].layerEnd == stages[r + 1].layerStart)
    && (forall r, q :: 0 <= r <= q < worldSize ==>
          Size(stages[q]) <= Size(stages[r]) <= Size(stages[q]) + 1)
  }

  function Size(stage: StageAssignment): int {
    stage.layerEnd - stage.layerStart
  }

  /** First layer of stage `rank` when the first `remainder` stages get one layer more than `base`. */
  function FirstLayer(base: nat, remainder: nat, rank: nat): nat {
    if rank == 0 then 0 else FirstLayer(base, remainder, rank - 1) + StageSize(base, remainder, rank - 1)
  }

  function StageSize(base: nat, remainder: nat, rank: nat): nat {
    base + (if rank < remainder then 1 else 0)
  }

  lemma {:induction false} FirstLayerIs(base: nat, remainder: nat, rank: nat)
    ensures FirstLayer(base, remainder, rank) == rank * base + Min(rank, remainder)
  {
    if rank > 0 {
      FirstLayerIs(base, remainder, rank - 1);
      MulSucc(rank - 1, base);
    }
  }

  /** The sizes add up to the number of layers, and no stage is empty. */
  lemma SizesAddUp(layers: nat, worldSize: nat)
    requires 0 < worldSize <= layers
    ensures FirstLayer(layers / worldSize, layers % worldSize, worldSize) == layers
    ensures layers / worldSize >= 1
  {
    FirstLayerIs(layers / worldSize, layers % worldSize, worldSize);
    assert layers == worldSize * (layers / worldSize) + layers % worldSize;
  }

  function StageAt(base: nat, remainder: nat, worldSize: nat, tied: bool, rank: nat): StageAssignment {
    StageAssignment(rank, worldSize, FirstLayer(base, remainder, rank), FirstLayer(base, remainder, rank + 1),
                    rank == 0, rank + 1 == worldSize, rank + 1 == worldSize && tied)
  }

  function StagesUpTo(base: nat, remainder: nat, worldSize: nat, tied: bool, count: nat): (stages: seq<StageAssignment>)
    ensures |stages| == count
  {
    seq(count, r requires 0 <= r < count => StageAt(base, remainder, worldSize, tied, r))
  }

  lemma {:induction false} FirstLayerGrows(base: nat, remainder: nat, rank: nat, later: nat)
    requires rank <= later
    ensures FirstLayer(base, remainder, rank) <= FirstLayer(base, remainder, later)
  {
    if rank < later {
      FirstLayerGrows(base, remainder, rank, later - 1);
    }
  }

  lemma StagesAreBalanced(base: nat, remainder: nat, layers: nat, worldSize: nat, tied: bool)
    requires worldSize >= 2 && base >= 1 && FirstLayer(base, remainder, worldSize) == layers
    ensures BalancedStages(StagesUpTo(base, remainder, worldSize, tied, worldSize), layers, worldSize, tied)
  {
    hide FirstLayer;
    var stages := StagesUpTo(base, remainder, worldSize, tied, worldSize);
    FirstLayerIs(base, remainder, 0);
    forall r | 0 <= r < worldSize
      ensures stages[r].layerStart < stages[r].layerEnd <= layers && Size(stages[r]) == StageSize(base, remainder, r)
    {
      FirstLayerStep(base, remainder, r);
      FirstLayerGrows(base, remainder, r + 1, worldSize);
    }
  }

  lemma FirstLayerStep(base: nat, remainder: nat, rank: nat)
    ensures FirstLayer(base, remainder, rank + 1) == FirstLayer(base, remainder, rank) + StageSize(base, remainder, rank)
  {}

  /** `PipelinePartition::balanced`: the remainder goes to the lowest ranks. */
  method Balanced(layers: nat, worldSize: nat, tied: bool) returns (result: Result<seq<StageAssignment>, TopologyError>)
    ensures result.Ok? <==> 2 <= worldSize <= 64 && worldSize <= layers
    ensures result.Ok? ==> BalancedStages(result.value, layers, worldSize, tied)
    ensures result == Err(WorldSizeOutOfRange) <==> !(2 <= worldSize <= 64)
  {
    if !(2 <= worldSize <= 64) {
      return Err(WorldSizeOutOfRange);
    }
    if worldSize > layers {
      return Err(MoreRanksThanLayers);
    }
    var base, remainder := layers / worldSize, layers % worldSize;
    var next := 0;
    var stages: seq<StageAssignment> := [];
    for rank := 0 to worldSize
      invariant stages == StagesUpTo(base, remainder, worldSize, tied, rank) && next == FirstLayer(base, remainder, rank)
    {
      var count := base + (if rank < remainder then 1 else 0);
      stages := stages + [StageAssignment(rank, worldSize, next, next + count,
                                          rank == 0, rank + 1 == worldSize, rank + 1 == worldSize && tied)];
      next := next + count;
    }
    SizesAddUp(layers, worldSize);
    StagesAreBalanced(base, remainder, layers, worldSize, tied);
    return Ok(stages);
  }

  // ---- running stages ----

  /** Running the first blocks and then the others is running them all. */
  lemma {:induction false} BlocksCompose(kern: Kernels, s: Shape, a: seq<Block>, b: seq<Block>, xs: seq<Vec>, position: nat,
                                         ca: seq<LayerCache>, cb: seq<LayerCache>)
    requires |a| == |ca| && |b| == |cb| && Aligned(ca, position) && Aligned(cb, position)
    ensures Aligned(ca + cb, position)
    ensures RunBlocks(kern, s, a + b, xs, position, ca + cb)
            == RunBlocks(kern, s, b, RunBlocks(kern, s, a, xs, position, ca), position, cb)
    ensures BlockCaches(kern, s, a + b, xs, position, ca + cb)
            == BlockCaches(kern, s, a, xs, position, ca)
               + BlockCaches(kern, s, b, RunBlocks(kern, s, a, xs, position, ca), position, cb)
    decreases |a|
  {
    hide RunBlock, BlockCache;
    if a == [] {
      assert a + b == b && ca + cb == cb;
    } else {
      assert (a + b)[1..] == a[1..] + b && (ca + cb)[1..] == ca[1..] + cb;
      BlocksCompose(kern, s, a[1..], b, RunBlock(kern, s, a[0], xs, position, ca[0]), position, ca[1..], cb);
    }
  }

  lemma MiddleSlice<X>(u: seq<X>, v: seq<X>, w: seq<X>)
    ensures (u + v + w)[|u|..|u| + |v|] == v
  {}

  /** A stage in the middle: what it computes and which part of all caches it leaves. */
  lemma StageInTheMiddle(kern: Kernels, s: Shape, a: seq<Block>, b: seq<Block>, rest: seq<Block>, xs: seq<Vec>, position: nat,
                         ca: seq<LayerCache>, cb: seq<LayerCache>, cr: seq<LayerCache>)
    requires |a| == |ca| && |b| == |cb| && |rest| == |cr|
    requires Aligned(ca, position) && Aligned(cb, position) && Aligned(cr, position)
    ensures Aligned(ca + cb, position) && Aligned(ca + cb + cr, position)
    ensures var ys := RunBlocks(kern, s, a, xs, position, ca);
            && RunBlocks(kern, s, a + b, xs, position, ca + cb) == RunBlocks(kern, s, b, ys, position, cb)
            && BlockCaches(kern, s, a + b + rest, xs, position, ca + cb + cr)[|a|..|a| + |b|] == BlockCaches(kern, s, b, ys, position, cb)
  {
    hide RunBlocks, BlockCaches, Aligned;
    BlocksCompose(kern, s, a, b, xs, position, ca, cb);
    BlocksCompose(kern, s, a + b, rest, xs, position, ca + cb, cr);
    var ys := RunBlocks(kern, s, a, xs, position, ca);
    MiddleSlice(BlockCaches(kern, s, a, xs, position, ca), BlockCaches(kern, s, b, ys, position, cb),
                BlockCaches(kern, s, rest, RunBlocks(kern, s, a + b, xs, position, ca + cb), position, cr));
  }

  /** Weights have the shapes of the checkpoint: every residual vector has width `width`. */
  ghost predicate Widths(blocks: seq<Block>, width: nat) {
    forall l :: 0 <= l < |blocks| ==> |blocks[l].o| == |blocks[l].down| == width
  }

  ghost predicate AllWide(xs: seq<Vec>, width: nat) {
    forall i :: 0 <= i < |xs| ==> |xs[i]| == width
  }

  /** Blocks keep the width of the residual stream. */
  lemma {:induction false} BlocksKeepWidth(kern: Kernels, s: Shape, blocks: seq<Block>, xs: seq<Vec>, position: nat,
                                           caches: seq<LayerCache>, width: nat)
    requires |blocks| == |caches| && Aligned(caches, position) && Widths(blocks, width) && AllWide(xs, width)
    ensures AllWide(RunBlocks(kern, s, blocks, xs, position, caches), width)
    decreases |blocks|
  {
    if blocks != [] {
      var ys := RunBlock(kern, s, blocks[0], xs, position, caches[0]);
      BlocksKeepWidth(kern, s, blocks[1..], ys, position, caches[1..], width);
    }
  }
}
