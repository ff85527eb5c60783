/** What the ranks refuse: frames and calls that do not fit make a rank fail instead of going on with them.

The lemmas hold at every point of the loops and for every incoming frame, so that no other theorem has to assume
that the other ranks behave. They name the comparisons themselves, not the functions the programs are built from. */
module Refusals {
  import opened Options
  import opened Arithmetic
  import opened Network
  import opened Tags
  import opened Collectives
  import opened LinearAlgebra
  import opened Llama
  import opened TensorShards
  import opened Generation
  import P = Pipeline
  import opened TensorParallel

  // ---- collectives ----

  /** A root that adds takes only tensors as long as its own, and adds element by element. */
  lemma AddingRoot<E, C, R>(w: World<E>, source: nat, root: nat, tag: nat, acc: seq<E>, received: nat, k: (seq<E>, nat) -> Proc<seq<E>, C, R>, y: seq<E>)
    requires source < w.size && source != root
    ensures var p := GatherLoop(w, source, root, tag, acc, received, Adding(w), k);
            && p.Recv? && p.source == source && p.want == WantTensor(tag)
            && (|y| != |acc| ==> p.resume(Tensor(tag, y)) == Failed)
            && (|y| == |acc| ==>
                  var sum := seq(|acc|, i requires 0 <= i < |acc| => w.plus(acc[i], y[i]));
                  p.resume(Tensor(tag, y)) == GatherLoop(w, source + 1, root, tag, sum, received + Bytes(w, y), Adding(w), k))
  {
    if |y| == |acc| {
      assert Zip(w.plus, acc, y) == seq(|acc|, i requires 0 <= i < |acc| => w.plus(acc[i], y[i]));
    }
  }

  /** A root that gathers takes only shards that agree with its own on the other axes, and puts them behind
  those it has. */
  lemma GatheringRoot<E, C, R>(w: World<E>, source: nat, tag: nat, x: seq<E>, acc: seq<E>, received: nat, k: (seq<E>, nat) -> Proc<seq<E>, C, R>, y: seq<E>)
    requires 0 < source < w.size
    ensures var p := GatherLoop(w, source, 0, tag, acc, received, Pushing(w, x), k);
            && p.Recv? && p.source == source && p.want == WantTensor(tag)
            && p.resume(Tensor(tag, y))
               == if w.fits(x, y) then GatherLoop(w, source + 1, 0, tag, acc + y, received + Bytes(w, y), Pushing(w, x), k) else Failed
  {}

  /** A rank that gets the centralized sum back takes it only if it is as long as what it sent. */
  lemma SumReceiver<E, C, R>(w: World<E>, rank: nat, sequence: nat, x: seq<E>, k: Output<E> -> Proc<seq<E>, C, R>, y: seq<E>)
    requires 0 < rank < w.size && sequence < MAX_SEQUENCES
    ensures var p := CallProc(w, CentralizedAllReduceCall, rank, sequence, x, k);
            && p.Send? && p.destination == 0 && AfterSend(p).Recv? && AfterSend(p).source == 0
            && var tag := AfterSend(p).want.tag;
               AfterSend(p).resume(Tensor(tag, y)) == if |y| == |x| then k(Output(Some(y), Bytes(w, x), Bytes(w, y))) else Failed
  {
    CollectiveTagExact(sequence, AllReduce, 0, 0);
    CollectiveTagExact(sequence, AllReduce, 1, 0);
    CollectiveTagExact(sequence, AllReduce, 2, 0);
    hide CollectiveTag;
  }

  /** In the first phase of the ring a rank refuses a chunk of another length than its own, and else adds it to its own,
  with its own on the left. */
  lemma RingAdds<E, C, R>(w: World<E>, rank: nat, sequence: nat, step: nat, chunks: seq<seq<E>>, sent: nat, received: nat,
                          k: (seq<seq<E>>, nat, nat) -> Proc<seq<E>, C, R>, y: seq<E>, at: nat)
    requires rank < w.size == |chunks| && step + 1 < w.size && step <= 255 && sequence < MAX_SEQUENCES && at == (rank + w.size - step - 1) % w.size
    ensures var p := RingReduce(w, rank, sequence, step, chunks, sent, received, k);
            && p.Exchange? && p.frame.Tensor?
            && (|y| != |chunks[at]| ==> p.resume(Tensor(p.tag, y)) == Failed)
            && (|y| == |chunks[at]| ==>
                  p.resume(Tensor(p.tag, y)) == RingReduce(w, rank, sequence, step + 1, chunks[at := Zip(w.plus, chunks[at], y)],
                                                           sent + Bytes(w, p.frame.tensor), received + Bytes(w, y), k))
  {
    CollectiveTagExact(sequence, AllReduce, 1, step);
    WrapIsMod(rank + w.size - step - 1, w.size);
    hide CollectiveTag, Wrap, Zip;
  }

  /** In the second phase it refuses such a chunk too, and else puts it in the place of its own. */
  lemma RingReplaces<E, C, R>(w: World<E>, rank: nat, sequence: nat, step: nat, chunks: seq<seq<E>>, sent: nat, received: nat,
                              k: (seq<seq<E>>, nat, nat) -> Proc<seq<E>, C, R>, y: seq<E>, at: nat)
    requires rank < w.size == |chunks| && step + 1 < w.size && step <= 255 && sequence < MAX_SEQUENCES && at == (rank + w.size - step) % w.size
    ensures var p := RingShare(w, rank, sequence, step, chunks, sent, received, k);
            && p.Exchange? && p.frame.Tensor?
            && (|y| != |chunks[at]| ==> p.resume(Tensor(p.tag, y)) == Failed)
            && (|y| == |chunks[at]| ==>
                  p.resume(Tensor(p.tag, y)) == RingShare(w, rank, sequence, step + 1, chunks[at := y],
                                                          sent + Bytes(w, p.frame.tensor), received + Bytes(w, y), k))
  {
    CollectiveTagExact(sequence, AllReduce, 2, step);
    WrapIsMod(rank + w.size - step, w.size);
    hide CollectiveTag, Wrap;
  }

  /** A pairwise round takes only a shard that agrees with the one it sent on the other axes. */
  lemma PairwiseRound<E, C, R>(w: World<E>, rank: nat, sequence: nat, step: nat, shards: seq<seq<E>>, got: seq<Option<seq<E>>>,
                               sent: nat, received: nat, k: Output<E> -> Proc<seq<E>, C, R>, y: seq<E>, to: nat, from: nat)
    requires rank < w.size == |shards| == |got| && 1 <= step < w.size && step <= 256 && sequence < MAX_SEQUENCES
    requires to == (rank + step) % w.size && from == (rank + w.size - step) % w.size
    ensures var p := PairwiseLoop(w, rank, sequence, step, shards, got, sent, received, k);
            && p.Exchange? && p.destination == to && p.source == from && p.frame == Tensor(p.tag, shards[to])
            && (!w.fits(shards[to], y) ==> p.resume(Tensor(p.tag, y)) == Failed)
            && (w.fits(shards[to], y) ==>
                  p.resume(Tensor(p.tag, y)) == PairwiseLoop(w, rank, sequence, step + 1, shards, got[from := Some(y)],
                                                             sent + Bytes(w, shards[to]), received + Bytes(w, y), k))
  {
    CollectiveTagExact(sequence, AllToAll, 0, step - 1);
    WrapIsMod(rank + step, w.size);
    WrapIsMod(rank + w.size - step, w.size);
    hide CollectiveTag, Wrap;
  }

  /** Calls that are refused before anything is sent: with a sequence number or a root out of range, and those
  that cut a tensor into as many parts as there are ranks, if it has no such parts. */
  lemma RefusedCalls<E, C, R>(w: World<E>, call: Call, rank: nat, sequence: nat, x: seq<E>, k: Output<E> -> Proc<seq<E>, C, R>)
    requires rank < w.size
    ensures sequence >= MAX_SEQUENCES ==> CallProc(w, call, rank, sequence, x, k) == Failed
    ensures (call.BroadcastCall? || call.ReduceCall?) && call.root >= w.size ==> CallProc(w, call, rank, sequence, x, k) == Failed
    ensures |x| % w.size != 0 && (call.RingAllReduceCall? || call.ReduceScatterCall? || call.AllToAllCall?) ==>
              CallProc(w, call, rank, sequence, x, k) == Failed
  {
    CollectiveTagExact(sequence, KindOf(call), 0, 0);
    hide CollectiveTag;
  }

  // ---- the pipeline ----

  /** A stage refuses an activation with a row of another width than the model's, with no rows, in a decode
  step with any number of rows but one, and one for which its cache has no room. */
  lemma StageRefuses(su: P.Setup, r: nat, step: nat, st: P.RankState, f: Frame<P.Activation, P.PipelineControl>)
    requires 0 < r && step < STEP_SPAN && f.Tensor?
    ensures var p := P.StepProc(su, r, step, st);
            && p.Recv? && p.source == r - 1
            && (f.tensor == [] || (step > 0 && |f.tensor| != 1) ==> p.resume(f) == Failed)
            && ((exists i :: 0 <= i < |f.tensor| && |f.tensor[i]| != su.width) ==> p.resume(f) == Failed)
            && (Length(st.cache) + |f.tensor| > st.cache.capacity ==> p.resume(f) == Failed)
  {
    NamespacesDisjoint(step, step, 0, Broadcast, 0, 0);
    hide P.PassOn;
  }

  /** Rank 0 takes only a token of its own step, and the other ranks only a decision of theirs. */
  lemma AgreementRefuses(su: P.Setup, r: nat, step: nat, st: P.RankState, f: Frame<P.Activation, P.PipelineControl>)
    requires step < STEP_SPAN && f.Control?
    ensures var p := P.Agree(su, r, step, st);
            && p.Recv? && p.source == (if r == 0 then P.LastRank(su) else 0)
            && (f.control.step != step || (r == 0 <==> f.control.DecisionMessage?) ==> p.resume(f) == Failed)
  {
    NamespacesDisjoint(step, step, 0, Broadcast, 0, 0);
    hide P.Announce, P.Conclude;
  }

  // ---- tensor parallelism ----

  /** A rank refuses an input that is empty, not at the end of its cache, too long for it, or not in the
  vocabulary; and a layer whose cache is full. */
  lemma ForwardRefuses(su: TpSetup, r: nat, step: nat, st: TpState, layer: nat, hidden: seq<Vec>)
    requires r < su.size && step < su.request.effective
    ensures st.input == [] || st.position != Length(st.cache) || st.position + |st.input| > st.cache.capacity ==> TpStep(su, r, step, st) == Failed
    ensures (exists i :: 0 <= i < |st.input| && st.input[i] >= |su.engine.model.embeddings|) ==> TpStep(su, r, step, st) == Failed
    ensures layer < |su.engine.model.blocks| && layer < |st.cache.layers| && |st.cache.layers[layer].keys| + |hidden| > st.cache.capacity ==>
              AtLayer(su, r, step, st, layer, hidden) == Failed
  {
    hide SumAcross, Attend, AppendRows, Rows;
  }

  /** A rank refuses a decision of another step, and one that ends the run without a reason. */
  lemma DecisionRefuses(su: TpSetup, r: nat, step: nat, st: TpState, decision: TokenDecision)
    requires r < su.size && step < su.request.effective
    ensures var p := AwaitDecision(su, r, step, st);
            && p.Recv? && p.source == 0
            && (decision.step != step || (!decision.continues && decision.reason.None?) ==>
                  p.resume(Control(p.want.tag, decision)) == Failed)
  {}
}
