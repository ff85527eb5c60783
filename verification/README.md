# A verified model of distributed Llama inference

The repository runs one Llama model on several ranks: as a pipeline of contiguous layer stages, or
tensor-parallel with weight shards glued together by collectives that are built from nothing but tagged
sends and receives. This project models that execution core in Dafny and proves what the design relies on.

* **Every schedule ends the same way.** `Network` is an asynchronous world: deterministic rank programs, one
  FIFO link per direction of a connection with any capacity (unbounded, bounded, or a direct hand-over as with a
  payload larger than the socket buffers), and a pending queue per source into which a receive puts frames that it
  is not looking for. `Network.EverySchedule` reduces all interleavings to one: if the ranks *can* finish by handing
  frames over one at a time, then every schedule takes exactly the steps of those frames, never gets stuck, gives every
  rank that result, and leaves no frame in flight or set aside. All protocol results below are proved for one schedule
  and hold for every schedule by that theorem.
* **Collectives.** Broadcast, reduce, all-gather, reduce-scatter, all-to-all and both all-reduces return what they
  promise, for every world size that the message tags allow, any element type and any `plus`; any program of calls
  whose inputs may depend on earlier outputs does so call by call, although ranks drift into later calls. The ring
  gives every rank the same expression, which is always the centralized sum if and only if `plus` is commutative and
  associative. Calls that fit together return on every rank if and only if every step has a tag.
* **One model, four ways.** Over exact reals, with RMS normalization, RoPE, SiLU and exp left uninterpreted: a
  forward cut into any chunks through the KV cache, contiguous stages, and tensor-parallel shards all compute the
  logits and the cache of one full forward; and that forward computes, feature by feature, formulas written down
  independently of it as sums over the weights (`BlockFormula`).
* **Generation.** The pipeline loop and the tensor-parallel loop, with their barriers, token feedback and decision
  broadcast, end on every rank with the tokens, the stop reason and the cache part of the single-process greedy loop, which
  itself emits what recomputing the whole text at every step would emit. Pipeline ranks are never more than one step
  apart, and both kinds of run take an exactly known number of frames.
* **Transport.** The receive loops are FIFO mailboxes per source, tag and kind, for TCP down to the bytes; both barriers are safe; the frame
  codec is canonical and self-delimiting; rendezvous and mesh establishment produce complete tables and meshes.
* **Planning.** Independently written parameter and KV byte counts agree for every configuration, and are
  conserved by stages and by tensor-parallel ranks; cache bytes are those of the arrays allocated, and a checkpoint that
  is accepted holds exactly the matrices that the forward needs.

## How it is organized

A rank appears twice. As a *program* (`Network.Proc`, built in `Collectives`, `Pipeline` and `TensorParallel`) it is the
specification that the whole-world theorems talk about. As an *object* (`NativeCollectives.Communicator`,
`PipelineRank.Rank`, `TensorRank.Rank`) it is the loop of the source, with its fields, its in-place chunk array and its
error returns. The endpoint of an object carries the program as a ghost `script`, and each method is proved
to take the script exactly from one point to another: a method that returned `Ok` has made the sends and
receives of the program, in order, and returns what the program says; one that reports a time-out stands at
a receive for which the transport has nothing (`Starved`); any other error is the program's own failure.

`Histories` closes the gap between the two. A schedule of the whole world gives every rank a history: the frames it
takes and the frames it sends. A program that is fed its history alone replays it, whichever half of an exchange went
first, and no operation of an endpoint changes where it will end on its input (`Fate`). So `RunInWorld` of
`NativeCollectives`, `PipelineRank` and `TensorRank` can say of the objects themselves: fed with what the rank takes
in any schedule that finishes it, the object returns the specified outputs or report and sends exactly the frames that the
rank sends there.

`Llama`, `BlockFormula`, `ChunkedForward`, `KvCaches`, `ModelForward` and `Generation` model the single process; `Partition`, `Pipeline*` the
pipeline; `Tensor*` the tensor-parallel path; `Mailbox`, `TcpEndpoints`, `InMemoryBarrier`, `TcpBarrier*`, `BarrierPrograms`, `WireCodec` and `Rendezvous` the
transports; `Planning` and `CheckpointFits` the counts and shapes. `Refusals` collects what ranks fail on. `Options`, `Arithmetic`, `Sequences`, `RankSets` and `LinearAlgebra` hold helpers.

## Results worth knowing

* The ring all-reduce and all-to-all have 8 bits for the step in a tag. `CollectiveSpecs.CallReturnsExactly` says that
  calls that fit together return on every rank if and only if they are not one of these two on more than 257 ranks;
  beyond that every rank fails under every schedule (`CollectiveSpecs.CallSettles`).
* The ring's value depends on the order of summation. `CollectiveAlgebra.RingAgreesExactly` says that it is the centralized
  sum for all worlds and tensors if and only if addition is commutative and associative;
  `CollectiveAlgebra.RingOrderMatters` shows three ranks for which a commutative addition that rounds makes them differ.
* The wire encoder writes tensors of any number of dimensions, but the decoder refuses more than 64.
  `WireCodec.RoundTrip` states the round trip as an equivalence with that bound.
* The decoder ignores the reserved header byte; `WireCodec.Canonical` says that this byte is the only
  difference between an accepted frame and its re-encoding.
* A TCP time-out is lossless only between frames. The reads of a length and of a body consume what has arrived, so a deadline
  inside a frame leaves the connection in mid-frame. `TcpEndpoints.ReceivedTakes` and `TcpEndpoints.CutIsLossless` say
  that nothing is lost if and only if the deadline is at a frame boundary; `TcpEndpoints.CutInLengthField` shows
  what follows for every stream whose length field is cut: the next read fails with an oversized frame.
* With tied embeddings a pipeline holds one extra embedding matrix (`Planning.StagesConserve`).
* The check that a mesh has one stream per peer cannot fail (`Rendezvous.EstablishMesh`), and neither can a client's check of
  the server's peer table (`Rendezvous.RunServer`), the comparison of a block's key and value shapes
  (`ModelForward.BlockForward`) or the ring's "divide evenly" check on the tensor-parallel path (`TensorParallelRuns.AllReduceResult`).

## Model

| member | source | states |
|---|---|---|
| Network.Diamond | crates/collectives/src/in_memory.rs:167-246 | Two different enabled steps (send or receive, same or different ranks, any link capacity) can be taken in either order with the same world as result: the receive-with-pending transport has no races. |
| Network.Determinacy | crates/collectives/src/tcp.rs:332-381 | Any legal partial schedule can be continued to the end that one complete schedule reaches, with the same number of steps in all. |
| Network.EverySchedule | crates/collectives/src/collective.rs:268-289 | If the ranks can finish by handing so many frames over one at a time, every schedule goes on to exactly the steps of those frames, cannot get stuck before, gives each rank the same result and leaves all links and pending queues empty. |
| Network.UniqueEnd | crates/collectives/src/collective.rs:268-289 | Ranks that can finish can finish in one way only. |
| Network.SameFrames | crates/collectives/src/collective.rs:268-289 | All ways of finishing hand over the same number of frames. |
| Network.HandSteps | crates/collectives/src/collective.rs:277-286 | A hand-over of one frame is a schedule of the asynchronous world for every capacity, including a link on which sender and receiver must meet. |
| Network.FirstLook | crates/collectives/src/in_memory.rs:250-268 | The index of the oldest frame that a receive may take, or the length if there is none. |
| Tags.CollectiveTagExact | crates/collectives/src/collective.rs:676-696 | A collective tag exists exactly for sequences below 2^44, phases up to 15 and steps up to 255, and lies in the reserved range. |
| Tags.CollectiveTagInjective | crates/collectives/src/collective.rs:676-696 | Two accepted tags are equal only for the same sequence, kind, phase and step. |
| Tags.TagNumbers | crates/collectives/src/collective.rs:676-696 | The number of every tag, bit field by bit field, with the number of each kind and the marks of the step tags. |
| Tags.NamespacesDisjoint | crates/pipeline/src/protocol.rs:58-79 | Activation, token, decision and collective tags never coincide, and step tags exist exactly below 2^60. |
| CollectiveRuns.GatherRuns | crates/collectives/src/collective.rs:298-305 | A root that receives from all others in rank order folds their tensors in that order and counts their bytes; every sender goes on, ranks before the start of the loop are untouched. |
| CollectiveRuns.ScatterRuns | crates/collectives/src/collective.rs:306-309 | A root that sends each rank its pick leaves every rank with that pick and itself with the bytes sent. |
| CollectiveRuns.RoundRuns | crates/collectives/src/collective.rs:268-289 | When all ranks exchange with a common shift, every rank resumes with the frame of the rank that far behind it. |
| CollectiveSpecs.BroadcastCompletes | crates/collectives/src/collective.rs:394-421 | Broadcast gives every rank the tensor of the root. |
| CollectiveSpecs.ReduceCompletes | crates/collectives/src/collective.rs:423-453 | Reduce gives the rank-ordered sum to the root and nothing to the others. |
| CollectiveSpecs.AllGatherCompletes | crates/collectives/src/collective.rs:455-491 | All-gather gives every rank the concatenation of all shards in rank order when every shard passes the root's comparison of the other axes. |
| CollectiveSpecs.SumCompletes | crates/collectives/src/collective.rs:291-317 | The centralized all-reduce gives every rank rank 0's sum; reduce-scatter gives rank r its r-th slice of it (`CollectiveAlgebra.ReduceScatterSlice` says which elements). |
| CollectiveAlgebra.ReduceScatterSlice | crates/collectives/src/collective.rs:543-562 | Rank r's tensor of a reduce-scatter is `sum[r*n/p..(r+1)*n/p]`. |
| CollectiveAlgebra.ReduceScatterJoins | crates/collectives/src/collective.rs:521-565 | In rank order the shards of a reduce-scatter join to the tensor of the centralized all-reduce. |
| CollectiveAlgebra.AllToAllSlices | crates/collectives/src/collective.rs:567-611 | Rank r's tensor of an all-to-all is the join, in rank order, of slice r of every rank's tensor. |
| CollectiveAlgebra.ReduceIsFold | crates/collectives/src/collective.rs:423-453 | Element by element reduce is the left fold that starts with the root's own element and goes on with the others by rank, for any operation and root. |
| CollectiveSpecs.RingCompletes | crates/collectives/src/collective.rs:319-367 | The ring all-reduce gives every rank the same tensor, chunk by chunk the ring's fold, and its byte counts. |
| CollectiveSpecs.AllToAllCompletes | crates/collectives/src/collective.rs:567-611 | All-to-all gives rank r the r-th shard of every rank, in source order, for tensors of any lengths that divide and whose shards agree on the other axes, with the bytes moved. |
| CollectiveSpecs.CallCompletes | crates/collectives/src/collective.rs:389-612 | Every valid call takes all ranks from the call to their continuations on the specified outputs. |
| CollectiveSpecs.CallFails | crates/collectives/src/collective.rs:676-686 | A ring or all-to-all call that fits together on more than 257 ranks takes every rank to failure. |
| CollectiveSpecs.CallSettles | crates/collectives/src/collective.rs:389-612 | Under every schedule calls that fit together end with the specified output on every rank, or with failure on every rank when a step has no tag, after exactly the steps of the call's frames. |
| CollectiveSpecs.CallFramesIs | crates/collectives/src/collective.rs:291-367 | A collective through a root hands over one frame per peer and direction, all-to-all (p-1)p frames, and the ring 2(p-1)p: p times what the centralized all-reduce takes. |
| CollectiveSpecs.CallReturnsExactly | crates/collectives/src/collective.rs:676-686 | Calls that fit together can return on every rank if and only if they are not a ring or all-to-all on more than 257 ranks. |
| CollectiveSpecs.ProgramsSettle | crates/collectives/src/collective.rs:202-235 | Any program of collective calls, whose inputs may depend on earlier outputs, ends under every schedule with each call's specified output on every rank, with no frame left anywhere, and after exactly the frames of its calls. |
| RingRuns.ReduceReply | crates/collectives/src/collective.rs:341-351 | In step s of the first phase rank r receives the partial fold of chunk r-s-1 and stores it with its own part added. |
| RingRuns.ReduceRound | crates/collectives/src/collective.rs:341-351 | One step of the first phase takes all ranks from their step-s chunks to their step-(s+1) chunks. |
| RingRuns.ShareReply | crates/collectives/src/collective.rs:353-363 | In step s of the second phase rank r receives the complete chunk r-s and stores it. |
| RingRuns.ShareRound | crates/collectives/src/collective.rs:353-363 | One step of the second phase, all ranks together. |
| RingRuns.RingRunsAll | crates/collectives/src/collective.rs:319-367 | Both phases: every rank goes on with the same complete chunks, having moved 2(p-1) chunks each way, for 2 to 257 ranks. |
| RingRuns.RingTooLarge | crates/collectives/src/collective.rs:676-686 | In a ring of more than 257 ranks every rank fails, because step 256 has no tag. |
| PairwiseRuns.PairwiseRunsAll | crates/collectives/src/collective.rs:592-611 | The pairwise rounds transpose the shards on all ranks, of any lengths, and account for the bytes of every shard sent and received. |
| PairwiseRuns.PairwiseTooLarge | crates/collectives/src/collective.rs:592-597 | Among more than 257 ranks every rank fails, because round 257 has no tag. |
| CollectiveAlgebra.RingFoldIsLeftFold | crates/collectives/src/collective.rs:341-351 | With commutative, associative addition the ring's fold, wherever it starts, is the left fold over the ranks. |
| CollectiveAlgebra.RingSumIsFold | crates/collectives/src/collective.rs:319-367 | Element by element the ring's result is the ring's fold of that element over the ranks, for any operation. |
| CollectiveAlgebra.RootSumIsFold | crates/collectives/src/collective.rs:298-305 | Element by element the root's result is the left fold over the ranks. |
| CollectiveAlgebra.RingIsCentralized | crates/collectives/src/collective.rs:493-519 | Ring and centralized all-reduce return the same tensor for commutative, associative addition. |
| CollectiveAlgebra.RingAgreesExactly | crates/collectives/src/collective.rs:493-519 | The ring returns the centralized sum on all worlds and for all tensors it accepts if and only if addition is commutative and associative. |
| CollectiveAlgebra.RingOrderMatters | crates/collectives/src/collective.rs:341-351 | With a commutative addition that rounds, three ranks get another tensor from the ring than from the centralized all-reduce. |
| CollectiveAlgebra.RingTraffic | crates/collectives/src/collective.rs:338-366 | Each ring rank records exactly 2(p-1)(N/p)4 bytes in each direction. |
| CollectiveAlgebra.CallFlowIs | crates/collectives/src/collective.rs:237-255 | For each call, what the ranks from a given one on record as sent minus received is the flow of the peers plus that of the root. |
| CollectiveAlgebra.PairFlowIsZero | crates/collectives/src/collective.rs:592-602 | In all-to-all the ranks together have received what they have sent, before every round and for shards of any lengths. |
| CollectiveAlgebra.TrafficBalances | crates/collectives/src/collective.rs:237-289 | From any point of a program on, the recorded balance of sent and received bytes over all ranks does not change. |
| CollectiveAlgebra.ProgramTraffic | crates/collectives/src/collective.rs:237-289 | Over a whole program the ranks record as many bytes sent as received. |
| NativeCollectives.Communicator.RingAllReduce | crates/collectives/src/collective.rs:319-367 | The two loops over the chunk array follow the ring program and return its tensor and byte counts. |
| NativeCollectives.Communicator.ReduceStep | crates/collectives/src/collective.rs:342-350 | One turn of the first loop adds what arrives to the chunk at the received index and leaves every other chunk of the array alone. |
| NativeCollectives.Communicator.ShareStep | crates/collectives/src/collective.rs:354-362 | One turn of the second loop overwrites the chunk at the received index with what arrives and leaves every other one alone. |
| NativeCollectives.Communicator.CentralizedAllReduce | crates/collectives/src/collective.rs:291-317 | Root and peers follow the gather-and-scatter program with shape checks. |
| NativeCollectives.Communicator.GatherAndBroadcast | crates/collectives/src/collective.rs:455-491 | All-gather on one rank: shards compared on the other axes and pushed in rank order, result sent back to all. |
| NativeCollectives.Communicator.SumAndScatter | crates/collectives/src/collective.rs:521-565 | Reduce-scatter on one rank follows the program: rank 0 sums in rank order, keeps slice 0 and sends slice d to rank d. |
| NativeCollectives.Communicator.PairwiseRounds | crates/collectives/src/collective.rs:586-611 | The all-to-all loop compares every arriving shard on the other axes and puts it into the slot of its source. |
| NativeCollectives.Communicator.Broadcast | crates/collectives/src/collective.rs:402-420 | Broadcast on one rank. |
| NativeCollectives.Communicator.Reduce | crates/collectives/src/collective.rs:423-453 | Reduce on one rank; exactly the root has a tensor. |
| NativeCollectives.Communicator.Run | crates/collectives/src/collective.rs:202-255 | One call: the sequence number is used up even on failure unless it would overflow, a trace with the recorded bytes is appended exactly on success, and every error is a missing frame or the program's own failure. |
| NativeCollectives.RunProgram | crates/collectives/src/collective.rs:161-255 | A communicator that makes the calls of a program one after the other follows the program to the outputs it returns. |
| NativeCollectives.FinishedOutputs | crates/collectives/src/collective.rs:202-255 | A rank that has finished in some schedule replays its history to the specified outputs of all its calls. |
| NativeCollectives.RunInWorld | crates/collectives/src/collective.rs:161-612 | A communicator fed with what its rank takes in any schedule that finishes it returns the specified output of every call and sends exactly the frames the rank sends there. |
| Endpoints.Endpoint.Exchange | crates/collectives/src/collective.rs:268-289 | The send goes out whether or not the receive succeeds; without the awaited frame the rank is left waiting for it; where the program ends on its input does not change. |
| Endpoints.Endpoint.Barrier | crates/collectives/src/tcp.rs:446-487 | One rank's part in the barrier: rank 0 collects all arrivals before the first release; an unexpected frame is a protocol error, a missing one a time-out. |
| Histories.HistoryReplays | crates/collectives/src/collective.rs:277-286 | A program fed with the frames its rank takes in a schedule ends where the rank ends, having sent the same frames in the same order, whichever half of each exchange went first there. |
| Refusals.AddingRoot | crates/collectives/src/collective.rs:298-305 | A root that adds goes on with the element-wise sum for a tensor as long as its own, and fails for any other. |
| Refusals.GatheringRoot | crates/collectives/src/collective.rs:468-480 | A root that gathers appends a shard that agrees on the other axes, and fails for any other. |
| Refusals.SumReceiver | crates/collectives/src/collective.rs:310-316 | A rank takes the centralized sum back only if it is as long as what it sent. |
| Refusals.RingAdds | crates/collectives/src/collective.rs:341-351 | A first-phase ring step adds a chunk of the right length on the right of the own one, and fails for any other. |
| Refusals.RingReplaces | crates/collectives/src/collective.rs:353-363 | A second-phase ring step stores a chunk of the right length, and fails for any other. |
| Refusals.PairwiseRound | crates/collectives/src/collective.rs:592-611 | A round exchanges with the ranks that far ahead and behind, and fails for a shard that does not agree with the one sent. |
| Refusals.RefusedCalls | crates/collectives/src/collective.rs:319-331 | Calls with a sequence or root out of range, or a tensor that does not divide, fail before anything is sent. |
| Refusals.StageRefuses | crates/pipeline/src/runner.rs:555-567 | A stage fails on an activation with a row of the wrong width, with no rows, with several rows in a decode step, or without room in its cache. |
| Refusals.AgreementRefuses | crates/pipeline/src/runner.rs:221-315 | Rank 0 fails on anything but a token of its step, another rank on anything but a decision of its step. |
| Refusals.ForwardRefuses | crates/runtime/src/model/tensor_parallel.rs:449-482 | A tensor-parallel forward fails on an empty, misplaced, too long or unknown input, and at a layer whose cache is full. |
| Refusals.DecisionRefuses | crates/tensor/src/runner.rs:317-333 | A tensor-parallel rank fails on a decision of another step, or one that ends without a reason. |
| Llama.RepeatKvAt | crates/runtime/src/model/llama.rs:155-164 | After expanding every compact head and reshaping, query head h meets compact head h / repetitions. |
| Llama.ForwardExact | crates/runtime/src/model/llama.rs:316-345 | A forward succeeds exactly for at least one token, all known, at the cache's position, with room for all; and which error it gives otherwise. |
| Llama.TotalPositive | crates/runtime/src/model/llama.rs:138-145 | With a positive exp the softmax denominator is positive as soon as one key is visible. |
| BlockFormula.CacheIs | crates/runtime/src/model/llama.rs:97-130 | Every key and value entry that a block leaves in the cache: what was there, or the normalized input's projection as a sum, keys rotated by the angles of their position. |
| BlockFormula.ExpIs | crates/runtime/src/model/llama.rs:136-146 | A head's weight for a key is exp of the scale times the sum of the products of their entries. |
| BlockFormula.HeadOutIs | crates/runtime/src/model/llama.rs:131-155 | A head's output is the sum of the visible values times those weights, over the sum of the weights. |
| BlockFormula.FeatureIs | crates/runtime/src/model/llama.rs:215-220 | Gated feature f is silu of the gate row's sum, times the up row's sum. |
| BlockFormula.BlockIs | crates/runtime/src/model/llama.rs:249-269 | Every output feature and cached entry of a block equals a formula of sums over the weights, the input and the cache that shares no definition with the model. |
| BlockFormula.ForwardIs | crates/runtime/src/model/llama.rs:316-354 | A forward that succeeds puts the embedding rows of the tokens through those formulas and gives each vocabulary entry the product of its head row with the normalized last activation. |
| BlockFormula.CachesStayFit | crates/runtime/src/model/cache.rs:42-51 | The caches after a forward have the shape the formulas need for the next one. |
| ChunkedForward.HeadIgnoresMasked | crates/runtime/src/model/llama.rs:166-185 | Keys and values behind the mask do not change a head's output. |
| ChunkedForward.AttendSplits | crates/runtime/src/model/llama.rs:97-152 | Attention over two groups of positions is attention over the first and then, on the extended cache, over the second, including a second group of one token for which no mask is built. |
| ChunkedForward.ForwardSplits | crates/runtime/src/model/llama.rs:316-354 | A prefill followed by a forward on its cache gives the logits and the cache of one forward. |
| ChunkedForward.ChunksAreOneForward | crates/runtime/src/model/llama.rs:316-354 | Feeding any non-empty chunks at the cache's own position equals one forward over their concatenation. |
| ChunkedForward.ChunksFailTogether | crates/runtime/src/model/cache.rs:28-51 | Chunked and single forward succeed under the same condition: everything fits the cache and every token is known. |
| KvCaches.LayerKvCache.Append | crates/runtime/src/model/cache.rs:28-51 | Appends both chunks behind the populated rows, or changes nothing and reports, in this order, chunks of different dimensions (heads, positions or width), a full cache, or heads and width other than the storage's. |
| KvCaches.LayerKvCache.WriteRows | crates/runtime/src/model/cache.rs:42-45 | The slice write replaces the rows from the write position on and keeps the prefix. |
| KvCaches.KvCache.Create | crates/runtime/src/model/cache.rs:87-110 | Created exactly for a layer count and a capacity in range, empty in every layer. |
| KvCaches.KvCache.Append | crates/runtime/src/model/cache.rs:152-162 | Appends to one layer, leaves all others alone, and reports a missing layer. |
| KvCaches.KvCache.Len | crates/runtime/src/model/cache.rs:138-140 | The length is the populated length of the first layer. |
| KvCaches.KvCache.UsedBytes | crates/runtime/src/model/cache.rs:167-175 | Counts the bytes of all populated key and value entries, one by one. |
| ModelForward.CausalMask | crates/runtime/src/model/llama.rs:166-185 | The nested loops build the mask row by row over queries and keys. |
| ModelForward.MaskIsVisible | crates/runtime/src/model/llama.rs:171-184 | The flag of query q and key t is set exactly for keys after position + q. |
| ModelForward.BlockForward | crates/runtime/src/model/llama.rs:249-269 | One block on the mutable cache: the outputs and cached rows of the block, which are those of the formulas of `BlockFormula`; its keys and values never differ in shape, and exactly a full cache or one made for other heads fails, with nothing changed. |
| ModelForward.ForwardBlocks | crates/runtime/src/model/llama.rs:346-349 | The block loop computes the composition of all blocks and updates every layer; on a cache made for other heads it fails with nothing written. |
| ModelForward.RowsShaped | crates/runtime/src/model/llama.rs:83-95 | With projections of the loaded shapes, key and value rows have the cache's heads and width. |
| ModelForward.RunForward | crates/runtime/src/model/llama.rs:316-354 | `forward` with its checks, errors, loop and head, on the mutable cache, equals the forward on values, and its logits are those of the formulas of `BlockFormula`. |
| ModelForward.RunGenerate | crates/runtime/src/generation.rs:180-229 | The greedy loop on the mutable cache returns the tokens, stop reason and cache of the recursive specification, or its error. |
| Generation.PreflightIsExact | crates/runtime/src/generation.rs:327-345 | Preflight accepts exactly requests for at least one token with a prompt shorter than the context; it then yields a capacity within the context and decides which limit will apply. |
| Generation.GreedyUnfolds | crates/runtime/src/generation.rs:194-229 | One turn of the loop: cache and length afterwards, and which of the three ways it goes on. |
| Generation.GreedySucceeds | crates/runtime/src/generation.rs:194-229 | After preflight no cache overflow can happen; the result has at most the effective number of tokens, no end-of-sequence token, and a cache length fixed by the stop reason. |
| Generation.CachedIsRecomputed | crates/runtime/src/generation.rs:211-222 | From any point on, cached decoding emits the tokens that recomputing the whole text at every step would emit. |
| Generation.GenerateIsRecompute | crates/runtime/src/generation.rs:97-231 | Generation succeeds on every valid request and equals generation without a cache. |
| Partition.Balanced | crates/pipeline/src/partition.rs:44-82 | Succeeds exactly for 2 to 64 ranks with a layer each; contiguous stages cover all layers, sizes differ by at most one, larger ones first. |
| Partition.SizesAddUp | crates/pipeline/src/partition.rs:56-63 | The stage sizes add up to the number of layers and none is empty. |
| Partition.StagesAreBalanced | crates/pipeline/src/partition.rs:56-79 | The stages cut from base and remainder form a balanced partition. |
| Partition.BlocksCompose | crates/runtime/src/model/llama.rs:460-502 | Running two lists of blocks one after the other is running their concatenation, in activations and caches. |
| Partition.StageInTheMiddle | crates/runtime/src/model/llama.rs:460-502 | A stage in the middle computes its part of the block list and leaves its slice of all caches. |
| Partition.BlocksKeepWidth | crates/pipeline/src/runner.rs:555-568 | Activations keep the hidden width, so the receiver's check cannot fail. |
| PipelineRuns.StageComputes | crates/pipeline/src/runner.rs:138-220 | Given the activation of the stage before it, a rank arrives at passing on its own activation, with its cache slice advanced. |
| PipelineRuns.ChainRuns | crates/pipeline/src/runner.rs:437-492 | The activation travels from any stage to the last one and leaves every rank at the agreement. |
| PipelineRuns.AgreementRuns | crates/pipeline/src/runner.rs:206-315 | Token feedback, rank 0's decision and its broadcast bring all ranks to the end of the loop body with one decision. |
| PipelineRuns.StepRuns | crates/pipeline/src/runner.rs:138-342 | One whole step on all ranks. |
| PipelineRuns.LoopRuns | crates/pipeline/src/runner.rs:138-342 | From any step on, all ranks reach the completion barrier with the outcome of the rest of the single-process loop. |
| PipelineRuns.PipelineSettles | crates/pipeline/src/runner.rs:138-352 | Under every schedule and capacity the pipeline ends with the tokens of single-process generation on rank 0, the same stop reason and the right cache slice on all ranks, after the steps of an exact number of frames, without failure, deadlock or a frame left unread. |
| PipelineRuns.RunFramesIs | crates/pipeline/src/runner.rs:195-352 | That number is 4 (ranks - 1) for the two barriers and 2 ranks - 1 for each forward. |
| PipelineRuns.BalancedCutsAreValid | crates/pipeline/src/partition.rs:44-82 | The stages of the balanced partition satisfy what the pipeline theorems assume. |
| PipelineLockstep.SendMoves | crates/pipeline/src/runner.rs:195-219 | A send by a rank at a known place of the loop leads to the next place, and the frame proves how far its sender has come. |
| PipelineLockstep.TakeMoves | crates/pipeline/src/runner.rs:221-342 | A receive leads to the next place only with the activation, token or decision of that very step. |
| PipelineLockstep.RecvKeeps | crates/collectives/src/tcp.rs:342-381 | The invariant that every frame in flight or set aside, and every place reached, has its evidence survives every receive. |
| PipelineLockstep.StepsStayTogether | crates/pipeline/src/runner.rs:138-342 | After any schedule any two ranks in the loop are at most one step apart, and the step is below the number of tokens to generate. |
| PipelineRank.Rank.ComputeStage | crates/pipeline/src/runner.rs:138-194 | Obtains tokens or the previous activation, validates it and runs the stage, following the rank's program. |
| PipelineRank.Rank.HandOn | crates/pipeline/src/runner.rs:195-219 | Hands the activation on, or selects the token and sends it to rank 0. |
| PipelineRank.Rank.DecideForAll | crates/pipeline/src/runner.rs:221-288 | Rank 0 takes this step's token, decides and tells all other ranks. |
| PipelineRank.Rank.AwaitDecision | crates/pipeline/src/runner.rs:289-315 | Every other rank takes this step's decision. |
| PipelineRank.Rank.Run | crates/pipeline/src/runner.rs:138-352 | The whole loop ends with the program at its report, or at a missing frame or the program's own failure. |
| PipelineRank.FinishedReports | crates/pipeline/src/runner.rs:138-352 | A rank that has finished in some schedule replays its history to its report of single-process generation. |
| PipelineRank.RunInWorld | crates/pipeline/src/runner.rs:19-390 | The rank object fed with what its rank takes in any schedule that finishes it returns that report and sends exactly the frames the rank sends there. |
| TcpBarrier.BarrierRuns | crates/collectives/src/tcp.rs:446-487 | When every rank is at the same barrier, all of them get past it with two frames for every rank but one. |
| TcpBarrierSafety.StepKeeps | crates/collectives/src/tcp.rs:446-487 | The barrier invariant over phases and barrier frames survives every step, with tensors sent and received on the same connections at any time. |
| TcpBarrierSafety.BarrierSafety | crates/collectives/src/tcp.rs:446-487 | Over every run no rank completes a generation that another has not entered, completed generations differ by at most one, and no wrong-generation error occurs. |
| TcpBarrierSafety.BarrierProgress | crates/collectives/src/tcp.rs:446-487 | Whenever a rank is inside the barrier, a rank inside it can go on, unless some rank has not entered that generation yet. |
| TcpBarrierSafety.TakesMarker | crates/collectives/src/tcp.rs:263-324 | Taking the first barrier frame of an inbox pops the barrier frames in order and keeps every tensor in order. |
| TcpBarrierSafety.TensorsStay | crates/collectives/src/tcp.rs:302-310 | No step of the barrier loses or reorders a tensor frame. |
| BarrierPrograms.Enters | crates/collectives/src/tcp.rs:446-500 | The program of a rank enters the barrier as the protocol does: rank 0 silently, the others with their arrival frame. |
| BarrierPrograms.Releases | crates/collectives/src/tcp.rs:460-475 | Rank 0's program turns to its releases exactly when all arrivals are in, and leaves after the last. |
| BarrierPrograms.Collects | crates/collectives/src/tcp.rs:263-324 | The program's receive of an arrival takes the first barrier frame of the inbox and goes on exactly for the awaited generation: it is the protocol's step. |
| BarrierPrograms.Resumes | crates/collectives/src/tcp.rs:263-324 | The same for the release that another rank waits for. |
| TensorShards.HeadCounts | crates/runtime/src/parallel.rs:124-155 | Under the divisibility checks every rank has equally many compact heads and keeps the repetition factor. |
| TensorShards.HeadOfShard | crates/runtime/src/model/tensor_parallel.rs:192-194 | Local query head j reads the compact head that its global head reads. |
| TensorShards.RowsOfShard | crates/runtime/src/model/tensor_parallel.rs:171-190 | A rank's queries, keys and values are its heads of the full ones. |
| TensorShards.HeadOutOfShard | crates/runtime/src/model/tensor_parallel.rs:191-209 | A local head puts out what the global head puts out. |
| TensorShards.AppendOfShard | crates/runtime/src/model/cache.rs:112-131 | Appending on the sharded cache is the shard of appending on the full one. |
| TensorShards.AttendOfShard | crates/runtime/src/model/tensor_parallel.rs:161-211 | A rank's attention output is its piece of the full one at every position. |
| TensorShards.DotPieces | crates/runtime/src/parallel.rs:244-268 | A dot product is the sum of the dot products of the pieces. |
| TensorShards.RowParallelSums | crates/runtime/src/parallel.rs:259-268 | The partial results of a row-parallel layer add up to the full layer. |
| TensorShards.GatedOfShard | crates/runtime/src/model/tensor_parallel.rs:254-262 | A rank's SwiGLU features are its piece of the full ones. |
| TensorShards.MaskedRowsSum | crates/runtime/src/parallel.rs:307-340 | The vocabulary-masked rows of all ranks add up to the token's embedding. |
| TensorShards.GatheredLogits | crates/runtime/src/parallel.rs:357-364 | Local logits gathered in rank order are the full logits. |
| TensorParallelRuns.AllReduceResult | crates/collectives/src/collective.rs:325-331 | Both all-reduce algorithms return the position-wise sum; the call is always valid, so the ring's division error is unreachable here. |
| TensorParallelRuns.AllReduceRuns | crates/runtime/src/parallel.rs:259-268 | All ranks get through an all-reduce with the sum of what they brought. |
| TensorParallelRuns.AttentionSums | crates/runtime/src/model/tensor_parallel.rs:161-211 | The partial attention outputs add up to the block's attention output. |
| TensorParallelRuns.MlpSums | crates/runtime/src/model/tensor_parallel.rs:254-262 | The partial feed-forward outputs add up to the block's. |
| TensorParallelRuns.EmbedSums | crates/runtime/src/parallel.rs:307-340 | The masked rows add up to the embedded input. |
| TensorParallelRuns.LayerRuns | crates/runtime/src/model/tensor_parallel.rs:314-336 | One layer on all ranks gives each rank the monolithic block's output and its heads of the cache. |
| TensorParallelRuns.LayersRun | crates/runtime/src/model/tensor_parallel.rs:483-488 | All remaining layers, two collectives each. |
| TensorParallelRuns.ForwardRuns | crates/runtime/src/model/tensor_parallel.rs:449-495 | Every rank ends a forward with the logits of the monolithic forward after 2 layers + 2 collectives. |
| TensorParallelRuns.DecisionRuns | crates/tensor/src/runner.rs:284-333 | Rank 0's decision reaches every rank. |
| TensorParallelRuns.RestUnfolds | crates/tensor/src/runner.rs:254-361 | One turn of the single-process loop in terms of the tensor-parallel step. |
| TensorParallelRuns.LoopRuns | crates/tensor/src/runner.rs:254-364 | From any step on, all ranks reach the final barrier with the outcome of the rest of the single-process loop. |
| TensorParallelRuns.TensorParallelSettles | crates/tensor/src/runner.rs:246-376 | Under every schedule and capacity every rank ends with the tokens and stop reason of single-process generation, its heads of the cache and the same number of collectives, without failure, deadlock or a frame left over, after exactly the frames that RunFramesIs counts. |
| TensorParallelRuns.RingBytes | crates/collectives/src/collective.rs:667-674 | On the tensor-parallel path, with four bytes per value, a rank's ring all-reduce records 2(p-1) chunks of 4N/p bytes each way. |
| TensorParallelRuns.RunFramesIs | crates/tensor/src/runner.rs:246-376 | A run hands over 4(p-1) frames for its barriers and per forward 2 layers + 1 all-reduces, of 2(p-1) frames through rank 0 or 2(p-1)p on the ring, and 3(p-1) frames for the logits and the decision. |
| TensorRank.LocalLookups | crates/runtime/src/parallel.rs:307-340 | The loop yields local row numbers and the ownership mask, and fails exactly for a token outside the vocabulary. |
| TensorRank.LookUp | crates/runtime/src/parallel.rs:307-340 | The masked lookup before the all-reduce. |
| TensorRank.Rank.RunAttention | crates/runtime/src/model/tensor_parallel.rs:161-211 | One rank's attention: cache append, local heads, all-reduce, following the program. |
| TensorRank.Rank.Forward | crates/runtime/src/model/tensor_parallel.rs:449-495 | One rank's forward uses exactly 2 layers + 2 sequence numbers and ends at the decision with the gathered logits. |
| TensorRank.Rank.Agree | crates/tensor/src/runner.rs:284-333 | Rank 0 decides and sends; every other rank takes the decision. |
| TensorRank.Rank.Run | crates/tensor/src/runner.rs:246-376 | The step loop ends with the program at its report, or at a missing frame or the program's own failure. |
| TensorRank.FinishedReports | crates/tensor/src/runner.rs:246-376 | A rank that has finished in some schedule replays its history to its report of single-process generation. |
| TensorRank.RunInWorld | crates/tensor/src/runner.rs:160-423 | The rank object with its communicator, fed with what its rank takes in any schedule that finishes it, returns that report and sends exactly the frames the rank sends there. |
| Mailbox.TakesOldest | crates/collectives/src/in_memory.rs:250-268 | Taking the first match pops its own queue and leaves every other queue of the inbox alone. |
| Mailbox.LooksIsMail | crates/collectives/src/in_memory.rs:250-268 | There is a match exactly when the queue of that tag and kind is not empty. |
| Mailbox.FifoPerTag | crates/collectives/src/in_memory.rs:186-246 | Over any history of sends, receives and time-outs, what was delivered for a tag followed by what is left is what was there and what was sent, in order. |
| Mailbox.InMemoryEndpoint.TakePending | crates/collectives/src/in_memory.rs:250-268 | Removes the oldest matching pending frame of a source, or nothing. |
| Mailbox.InMemoryEndpoint.Drain | crates/collectives/src/in_memory.rs:207-245 | Reads the channel up to the first match before the deadline and sets everything before it aside in order. |
| Mailbox.InMemoryEndpoint.Receive | crates/collectives/src/in_memory.rs:186-246 | Returns the oldest matching frame or times out losing nothing; every other source's inbox is unchanged; an unknown peer changes nothing. |
| Mailbox.TurnsAreOneReceive | crates/collectives/src/in_memory.rs:186-246 | In the asynchronous world, the receive turns of one rank up to its frame or to the end of the link are together one receive: for every kind of receive it takes the oldest pending frame it may take, else the first that it does not set aside, leaves the rest in order, and touches no other queue. |
| Mailbox.TurnsTake | crates/collectives/src/in_memory.rs:186-246 | For tensor and control receives those turns end with the inbox and the frame that the endpoints' receive gives on pending plus link. |
| TcpEndpoints.WrittenIsInStep | crates/collectives/src/tcp.rs:968-1006 | What a peer writes to a connection reads as the frames it wrote, addressed to this rank. |
| TcpEndpoints.BoundariesOfWritten | crates/collectives/src/tcp.rs:968-981 | In the bytes a peer writes, the frame boundaries are exactly the lengths of its first so many frames with their length fields. |
| TcpEndpoints.CutIsLossless | crates/collectives/src/tcp.rs:983-1006 | A stream from which the first n bytes are gone reads as some of its last frames if and only if n is a frame boundary. |
| TcpEndpoints.CutInLengthField | crates/collectives/src/tcp.rs:989-1000 | After a cut inside a length field the next length is larger than any frame limit below 2^49, so reading on fails, whatever the frames are. |
| TcpEndpoints.DrainsInStep | crates/collectives/src/tcp.rs:347-380 | On a stream in step the receive loop stops at the first frame it does not set aside if that one arrives whole in time, and otherwise sets aside all whole frames and consumes every byte that arrived. |
| TcpEndpoints.ReceivedTakes | crates/collectives/src/tcp.rs:263-381 | Every receive on a connection in step takes exactly the frame it should, wherever that frame is, or times out; the time-out loses nothing if and only if the deadline is at a frame boundary. |
| TcpEndpoints.ReadsExactly | crates/collectives/src/tcp.rs:201-221 | On any bytes a read succeeds exactly when a length within the limit and as many bytes arrive in time and decode to a frame from this peer to this rank; it consumes just those. |
| TcpEndpoints.TcpEndpoint.ReadFrom | crates/collectives/src/tcp.rs:201-221 | Length, body, decoding and the check of both addresses, byte for byte: what a deadline inside the length or the body has consumed is gone. |
| TcpEndpoints.TcpEndpoint.Receive | crates/collectives/src/tcp.rs:342-381 | On any bytes the receive does what its specification function says; on a connection in step it returns the oldest matching frame, or times out, losslessly if and only if the deadline is at a frame boundary; other sources and, for an unknown peer, everything stay as they are. |
| TcpEndpoints.TcpEndpoint.TakePending | crates/collectives/src/tcp.rs:223-261 | The oldest pending frame that the receive may take is removed, or nothing. |
| TcpEndpoints.TcpEndpoint.ReceiveBarrier | crates/collectives/src/tcp.rs:263-324 | The barrier receive takes a barrier frame set aside earlier or the next frame that is not a tensor, keeps tensors met on the way in order, and accepts only the awaited generation; its time-out is lossless under the same condition. |
| InMemoryBarrier.StepKeeps | crates/collectives/src/in_memory.rs:50-101 | The barrier invariant survives every entry, wake-up and time-out. |
| InMemoryBarrier.AllOrNothing | crates/collectives/src/in_memory.rs:50-101 | Nobody passes a generation before all have entered it; every participant of a completed generation passes or still sleeps; a time-out breaks the barrier and nobody passes that generation. |
| InMemoryBarrier.CompletedMeansPassed | crates/collectives/src/in_memory.rs:80-99 | Whoever entered a generation that a run completes never fails or times out in any continuation: it has passed, or it sleeps and passes at the next wake-up, even if a later generation has broken or its time is up. |
| InMemoryBarrier.BrokenForever | crates/collectives/src/in_memory.rs:56-59 | Once broken, the barrier stays broken, nobody enters, nobody passes the broken generation, and every call of that generation hears that it is broken. |
| InMemoryBarrier.AnswerIsRight | crates/collectives/src/in_memory.rs:50-101 | In every reachable state the answer of a call is what its step did: success exactly if its ticket passes, an error exactly if the barrier is broken and nobody passes, with the caller's generation and the right kind. |
| InMemoryBarrier.WaitTellsTheTruth | crates/collectives/src/in_memory.rs:50-101 | Over all runs: a call returns success only for a generation all ranks have entered, and after an error nobody passes that generation in any continuation. |
| InMemoryBarrier.Barrier.EnterSection | crates/collectives/src/in_memory.rs:50-68 | The critical section on entry changes the fields as the transition of the protocol says, and answers what that transition did to the caller's ticket. |
| InMemoryBarrier.Barrier.WakeSection | crates/collectives/src/in_memory.rs:70-100 | The critical section after a wait does too. |
| WireCodec.RoundTrip | crates/collectives/src/tcp.rs:807-966 | A well-formed frame decodes to itself exactly if it is not a tensor of more than 64 dimensions, which is refused. |
| WireCodec.Canonical | crates/collectives/src/tcp.rs:868-966 | An accepted byte string is the encoding of the decoded frame except for the reserved byte. |
| WireCodec.AcceptedLength | crates/collectives/src/tcp.rs:868-966 | An accepted byte string has exactly the length that its header fields announce. |
| WireCodec.PrefixFree | crates/collectives/src/tcp.rs:868-966 | No strict prefix or extension of an accepted frame is accepted. |
| WireCodec.StreamRoundTrip | crates/collectives/src/tcp.rs:968-1006 | A stream of length-prefixed frames reads back as the same frames. |
| WireCodec.UnLeOfLe | crates/collectives/src/tcp.rs:1120-1150 | Little-endian fields read back as written. |
| WireCodec.LeAt | crates/collectives/src/tcp.rs:807-866 | Byte k of a number on the wire is its k-th digit to base 256. |
| WireCodec.HeaderLayout | crates/collectives/src/tcp.rs:807-822 | Every frame begins with the bytes 68, 76, 73, 82, 2, 0, the number of its kind, 0, and both ranks in four bytes. |
| WireCodec.TensorLayout | crates/collectives/src/tcp.rs:823-845 | Where tag, counts, dimensions and values of a tensor frame are, and its length. |
| WireCodec.ControlLayout | crates/collectives/src/tcp.rs:846-855 | Where tag, length and payload of a control frame are, and its length. |
| WireCodec.BarrierLayout | crates/collectives/src/tcp.rs:856-859 | A barrier frame has 24 bytes and ends with its generation. |
| WireCodec.EncoderAccepts | crates/collectives/src/tcp.rs:807-866 | The encoder refuses exactly ranks or dimension counts that do not fit four bytes and frames beyond the limit. |
| WireCodec.EncodeWire | crates/collectives/src/tcp.rs:807-866 | The pushes into the buffer produce the encoding, or the size and range errors. |
| WireCodec.DecodeTensorWire | crates/collectives/src/tcp.rs:888-923 | The cursor over counts, dimensions and values decodes the tensor payload. |
| WireCodec.DecodeWire | crates/collectives/src/tcp.rs:868-966 | The decoder with all its errors. |
| Rendezvous.RunServer | crates/collectives/src/tcp.rs:522-617 | Succeeds exactly when the first registrations are compatible, and then sends every client one rank-ordered table of distinct addresses; a refused registration is answered, with all before it, by the same error; too few registrations are a time-out without answers; whoever is answered concludes what the server concludes. |
| Rendezvous.ReadTable | crates/collectives/src/tcp.rs:635-650 | The client's check of the answer; with RunServer it cannot find the server's table malformed. |
| Rendezvous.FilledWhenAll | crates/collectives/src/tcp.rs:522-600 | All slots are filled exactly when as many compatible registrations as ranks have been filed. |
| Rendezvous.AcceptLower | crates/collectives/src/tcp.rs:662-694 | The accept thread succeeds exactly on correct handshakes from distinct lower ranks, which are then all lower ranks; it times out exactly when some are missing. |
| Rendezvous.DialIsAnswered | crates/collectives/src/tcp.rs:734-759 | A dial to a higher rank is accepted if and only if both ends agree on the run and the world and the dialed rank is the one that answers. |
| Rendezvous.EstablishMesh | crates/collectives/src/tcp.rs:653-732 | Succeeds exactly when the lower ranks dial correctly and the higher ones answer, with one stream per other rank in rank order; the final count check never fails. |
| Rendezvous.SortKeeps | crates/collectives/src/tcp.rs:723-723 | Sorting by peer keeps the peers and orders them. |
| Rendezvous.MeshIsComplete | crates/collectives/src/tcp.rs:723-730 | Dialed and accepted peers together are all other ranks. |
| Rendezvous.MeshNeverSticks | crates/collectives/src/tcp.rs:653-722 | Dialing upwards with a concurrent accept thread never blocks, and when all have dialed every rank has accepted exactly the lower ones. |
| Planning.ExpectedTensorShapes | crates/runtime/src/artifacts.rs:232-284 | The manifest has exactly the named tensors with their shapes, or reports invalid heads; `CheckpointFits.LoadsExactly` says what those shapes are for. |
| CheckpointFits.HeadDimExact | crates/runtime/src/registry.rs:221-236 | The head width is d exactly when there are query heads of width d that make up the hidden width and a whole number of them per compact head. |
| CheckpointFits.LoadsExactly | crates/runtime/src/artifacts.rs:250-282 | The weights of a block have the manifest's shapes if and only if every matrix is as wide as the vector the forward applies it to and as high as the vector it has to put out. |
| CheckpointFits.AcceptedModelRuns | crates/runtime/src/artifacts.rs:168-230 | A model read from an accepted checkpoint fits the forward in all layers, with one embedding and one head row per vocabulary entry. |
| Planning.AnyOrder | crates/runtime/src/artifacts.rs:214-229 | The sum over the manifest does not depend on the order of its tensors. |
| Planning.CountsAgree | crates/runtime/src/memory.rs:198-214 | Manifest sum, component breakdown and shard planner's count are the same number for every configuration. |
| Planning.CountParameters | crates/runtime/src/artifacts.rs:214-229 | The checked fold returns the sum exactly if it equals the registered count, and reports overflow exactly if the sum leaves 64 bits. |
| Planning.ValidateCheckpoint | crates/runtime/src/artifacts.rs:168-230 | A checkpoint header is accepted exactly when it lists the model's tensors with their shapes and the registered dtype and the model's architectural count is the registered one; `CheckpointFits.AcceptedModelRuns` says that this is a model the forward can run. |
| Planning.BreakdownIs | crates/runtime/src/memory.rs:198-214 | Each component of the breakdown is the size of the tensors that belong to it. |
| Planning.StageHolds | crates/pipeline/src/partition.rs:144-160 | A stage's planned parameters are the sizes of the tensors of its layers, and of the embeddings, final norm and head where it owns them. |
| Planning.KvBytesAreStorage | crates/runtime/src/memory.rs:165-170 | The cache bytes that the model, stage and tensor-parallel plans compute, each with its own formula, are the bytes of the key and value arrays that the corresponding cache allocates. |
| Planning.StagesConserve | crates/pipeline/src/partition.rs:140-176 | Stage parameters sum to the model's, plus one embedding matrix exactly when tied; stage KV bytes sum to the model's. |
| Planning.LocalIsExact | crates/runtime/src/parallel.rs:156-170 | The planned local count divides without remainder and is what the shards hold. |
| Planning.PlanTensorShard | crates/runtime/src/parallel.rs:124-182 | A plan exists exactly when the rank is in its group and all dimensions divide; the ranges tile their dimensions, and the local and aggregate counts are those of the shards. |
| Planning.RanksConserve | crates/tensor/src/plan.rs:71-123 | Rank parameters sum to the model's plus tp-1 copies of the norms; rank KV bytes sum to the model's. |

## Left out

- Tensors with several axes: collectives work on the sequence of slices along the gathered or scattered axis; the comparison of the other axes is an arbitrary predicate, and the comparison of whole shapes in the reductions is one of lengths.
- F32 rounding: collectives are proved for an arbitrary operation; equality of the forward variants is over exact reals, so no bitwise equality of logits is claimed.
- Kernels: RMS normalization, RoPE tables, SiLU and exp are uninterpreted; softmax is weights over their total, without the subtraction of the maximum; dtype and device conversions are not modelled.
- Batches: one sequence at a time; the check that the batch size is one is not modelled.
- Deadlines and clocks: a time-out is a step a rank stops at, a `patience` that counts the frames read before the deadline of an in-memory receive, or a `budget` that counts the bytes read before that of a TCP receive.
- The overflow of a 64-bit byte count in `tensor_bytes` and of a barrier's generation counter, and the 32-bit targets on which `usize` is narrower than 64 bits.
- Disconnects, peer shutdown, poisoned locks and panicking threads.
- Events, layer observers, durations, memory reports and token text.
- JSON encoding of control messages, which are an injective datatype here.
- Network.EverySchedule: counts steps but does not speak of fairness or time; a schedule that stops early is a rank that waits.
- RingRuns.RingRunsAll: for at most 257 ranks, because the code fails beyond that (CollectiveSpecs.CallReturnsExactly gives the exact condition).
- PipelineRuns.PipelineSettles: assumes at most 2^60 generated tokens, beyond which there are no step tags.
- PairwiseRuns.PairwiseRunsAll: for at most 257 ranks, for the same reason (PairwiseRuns.PairwiseTooLarge).
- Tags.NamespacesDisjoint: the tensor-parallel runner adds its step to the decision base without a check; the request limit keeps the step in range there.
- Endpoints.Endpoint.Receive: the rank objects see the transport as the list of frames that their rank takes; how pending queues, links and byte streams produce it is proved in Mailbox, TcpEndpoints and Network, and that the lists of a schedule suffice in Histories.
- Endpoints.Endpoint.Exchange: send and receive happen in this order in the rank object; in Network either may come first, and Histories.HistoryReplays shows that the outcome is the same.
- PipelineRank.Rank.Run: holds its cache as a value; writing into the cache arrays in place is proved in KvCaches and ModelForward.
- TensorRank.Rank.Run: the same, and the collectives run through the communicator object.
- TensorParallelRuns.TensorParallelSettles: assumes the divisibility that `plan_tensor_shard` checks and a run of at most 2^44 collectives, beyond which there are no tags; how far ranks may drift apart inside one forward is not bounded.
- InMemoryBarrier.AllOrNothing: the in-memory barrier is a protocol of its own; the pipeline and tensor-parallel theorems use the TCP barrier's frames.
- TcpBarrierSafety.BarrierSafety: the TCP barrier gives no all-or-nothing verdict under time-outs, and a control frame read while waiting is a protocol error; the run theorems show that no such frame is there.
- WireCodec.RoundTrip: tensor values are 32-bit patterns; a control payload is a byte string.
- TcpEndpoints.TcpEndpoint.ReadFrom: one error stands for a read that times out and for a deadline found expired before a read, which the code reports as a time-out and as a protocol error.
- TcpEndpoints.TcpEndpoint.Receive: what a connection delivers after a deadline inside the body of a frame is what the decoder makes of the remaining bytes; only a cut inside the length field has a stated outcome.
- ModelForward.RunGenerate: the loaded projections have the shapes of the configuration, and the cache is the one that `generate` creates from it.
- Rendezvous.RunServer: sockets and JSON framing are a list of registrations in order of arrival, and every answer can be written.
- Rendezvous.MeshNeverSticks: every dialed peer is reachable; a refused connection is a parameter of EstablishMesh.
- Planning.CountsAgree: unbounded arithmetic; the 64-bit checks are modelled in CountParameters only, for configurations whose single dimensions fit 64 bits.
- Planning.PlanTensorShard: the tensor-parallel group only; the pipeline and expert groups of a context are fixed to one rank there.
- Placement verdicts, memory budgets, byte-size parsing, resource limits and CPU sets.
- Model registry, downloads, tokenizers, chat templates, safetensors files, command line, terminal interface, containers.
