/** The pipeline ranks, under any schedule, end with the result of single-process generation. */
module PipelineRuns {
  import opened Options
  import opened Network
  import opened Tags
  import opened LinearAlgebra
  import opened Llama
  import opened ChunkedForward
  import opened Generation
  import opened Partition
  import opened TcpBarrier
  import opened Pipeline

  /** The cuts divide all blocks into at least two non-empty stages, and the weights have their shapes. */
  ghost predicate ValidSetup(su: Setup) {
    && ValidEngine(su.engine) && ValidRequest(su.engine, su.request) && su.request.effective <= STEP_SPAN
    && World(su) >= 2
    && su.cuts[0] == 0 && su.cuts[World(su)] == |su.engine.model.blocks|
    && (forall r, q :: 0 <= r < q <= World(su) ==> su.cuts[r] < su.cuts[q])
    && Widths(su.engine.model.blocks, su.width) && AllWide(su.engine.model.embeddings, su.width)
  }

  /** Stage `r`'s part of the whole cache. */
  ghost function Slice(su: Setup, c: Cache, r: nat): Cache
    requires ValidSetup(su) && ValidCache(su.engine.model, c) && r < World(su)
  {
    c.(layers := c.layers[su.cuts[r]..su.cuts[r + 1]])
  }

  /** The activation that leaves stage `r` when the embedded input is `xs`. */
  ghost function Hidden(su: Setup, xs: Activation, c: Cache, r: nat): (ys: Activation)
    requires ValidSetup(su) && ValidCache(su.engine.model, c) && r < World(su)
    ensures |ys| == |xs|
  {
    var n := su.cuts[r + 1];
    RunBlocks(su.engine.kern, su.engine.shape, su.engine.model.blocks[..n], xs, Length(c), c.layers[..n])
  }

  /** The whole cache after a forward of `xs`. */
  ghost function Advanced(su: Setup, xs: Activation, c: Cache): Cache
    requires ValidCache(su.engine.model, c)
  {
    c.(layers := BlockCaches(su.engine.kern, su.engine.shape, su.engine.model.blocks, xs, Length(c), c.layers))
  }

  lemma AdvancedIsValid(su: Setup, xs: Activation, c: Cache)
    requires ValidEngine(su.engine) && ValidCache(su.engine.model, c) && Length(c) + |xs| <= c.capacity
    ensures ValidCache(su.engine.model, Advanced(su, xs, c)) && Length(Advanced(su, xs, c)) == Length(c) + |xs|
  {
    hide BlockCaches;
  }

  /** Stage `r` has its slice of the blocks and of the cache, at the position of the whole cache. */
  lemma SliceIsStage(su: Setup, c: Cache, r: nat)
    requires ValidSetup(su) && ValidCache(su.engine.model, c) && r < World(su)
    ensures su.cuts[r] < su.cuts[r + 1] <= |su.engine.model.blocks|
    ensures StageBlocks(su, r) == su.engine.model.blocks[su.cuts[r]..su.cuts[r + 1]]
    ensures |Slice(su, c, r).layers| == |StageBlocks(su, r)|
    ensures Aligned(Slice(su, c, r).layers, Length(c)) && Length(Slice(su, c, r)) == Length(c)
  {
    CutsInRange(su, r);
  }

  /** Stage `r` gets its input from stage `r - 1` and leaves its part of the advanced cache. */
  lemma StageStep(su: Setup, xs: Activation, c: Cache, r: nat)
    requires ValidSetup(su) && ValidCache(su.engine.model, c) && r < World(su)
    requires xs != [] && Length(c) + |xs| <= c.capacity
    ensures ValidCache(su.engine.model, Advanced(su, xs, c))
    ensures StageForward(su, r, if r == 0 then xs else Hidden(su, xs, c, r - 1), Slice(su, c, r))
            == Ok((Hidden(su, xs, c, r), Slice(su, Advanced(su, xs, c), r)))
  {
    AdvancedIsValid(su, xs, c);
    SliceIsStage(su, c, r);
    var input := if r == 0 then xs else Hidden(su, xs, c, r - 1);
    StageValues(su, xs, c, r, input);
    hide RunBlocks, BlockCaches, ValidSetup, Aligned, Hidden;
  }

  lemma AlignedPart(layers: seq<LayerCache>, p: nat, lo: nat, hi: nat)
    requires Aligned(layers, p) && lo <= hi <= |layers|
    ensures Aligned(layers[lo..hi], p)
  {}

  /** The blocks `lo..hi` of a cut block list, fed with what the blocks before them compute. */
  lemma CutBlocks(kern: Kernels, s: Shape, blocks: seq<Block>, xs: seq<Vec>, p: nat, layers: seq<LayerCache>, lo: nat, hi: nat)
    requires |blocks| == |layers| && lo <= hi <= |blocks| && Aligned(layers, p)
    ensures Aligned(layers[..lo], p) && Aligned(layers[lo..hi], p) && Aligned(layers[..hi], p)
    ensures var input := RunBlocks(kern, s, blocks[..lo], xs, p, layers[..lo]);
            && RunBlocks(kern, s, blocks[..hi], xs, p, layers[..hi]) == RunBlocks(kern, s, blocks[lo..hi], input, p, layers[lo..hi])
            && BlockCaches(kern, s, blocks, xs, p, layers)[lo..hi] == BlockCaches(kern, s, blocks[lo..hi], input, p, layers[lo..hi])
  {
    hide RunBlocks, BlockCaches;
    AlignedPart(layers, p, 0, lo);
    AlignedPart(layers, p, lo, hi);
    AlignedPart(layers, p, 0, hi);
    AlignedPart(layers, p, hi, |layers|);
    hide Aligned;
    var a, b, rest := blocks[..lo], blocks[lo..hi], blocks[hi..];
    var ca, cb, cr := layers[..lo], layers[lo..hi], layers[hi..];
    assert blocks[..hi] == a + b && layers[..hi] == ca + cb;
    assert blocks == a + b + rest && layers == ca + cb + cr;
    StageInTheMiddle(kern, s, a, b, rest, xs, p, ca, cb, cr);
  }

  lemma StageValues(su: Setup, xs: Activation, c: Cache, r: nat, input: Activation)
    requires ValidSetup(su) && ValidCache(su.engine.model, c) && r < World(su)
    requires input == if r == 0 then xs else Hidden(su, xs, c, r - 1)
    ensures su.cuts[r] < su.cuts[r + 1] <= |su.engine.model.blocks|
    ensures var kern, s, blocks, p := su.engine.kern, su.engine.shape, su.engine.model.blocks, Length(c);
            var lo, hi := su.cuts[r], su.cuts[r + 1];
            && Aligned(c.layers[lo..hi], p)
            && Hidden(su, xs, c, r) == RunBlocks(kern, s, blocks[lo..hi], input, p, c.layers[lo..hi])
            && Advanced(su, xs, c).layers[lo..hi] == BlockCaches(kern, s, blocks[lo..hi], input, p, c.layers[lo..hi])
  {
    CutsInRange(su, r);
    var kern, s, blocks, p := su.engine.kern, su.engine.shape, su.engine.model.blocks, Length(c);
    var lo, hi := su.cuts[r], su.cuts[r + 1];
    CutBlocks(kern, s, blocks, xs, p, c.layers, lo, hi);
    if r == 0 {
      assert lo == 0 && RunBlocks(kern, s, blocks[..0], xs, p, c.layers[..0]) == xs;
    }
    hide RunBlocks, BlockCaches, Aligned, ValidSetup, Length;
  }

  lemma CutsInRange(su: Setup, r: nat)
    requires ValidSetup(su) && r < World(su)
    ensures su.cuts[r] < su.cuts[r + 1] <= |su.engine.model.blocks|
  {
    assert r + 1 < World(su) ==> su.cuts[r + 1] < su.cuts[World(su)];
  }

  /** Every activation has the width the receiver checks for. */
  lemma HiddenIsValid(su: Setup, xs: Activation, c: Cache, r: nat, step: nat)
    requires ValidSetup(su) && ValidCache(su.engine.model, c) && r < World(su) && AllWide(xs, su.width)
    requires step > 0 ==> |xs| == 1
    ensures ValidActivation(su, step, Hidden(su, xs, c, r))
  {
    var n := su.cuts[r + 1];
    hide RunBlocks;
    BlocksKeepWidth(su.engine.kern, su.engine.shape, su.engine.model.blocks[..n], xs, Length(c), c.layers[..n], su.width);
  }

  /** What rank `r` carries when rank 0 has emitted `tokens`. */
  ghost function StateOf(su: Setup, r: nat, tokens: seq<nat>, c: Cache): RankState
    requires ValidSetup(su) && ValidCache(su.engine.model, c) && r < World(su)
  {
    if r == 0 then RankState(if tokens == [] then None else Some(tokens[|tokens| - 1]), tokens, Slice(su, c, 0))
    else RankState(None, [], Slice(su, c, r))
  }

  /** All ranks are at the top of the loop, in step `|tokens|`. */
  ghost predicate AtTop(su: Setup, procs: seq<RankProc>, tokens: seq<nat>, c: Cache)
    requires ValidSetup(su) && ValidCache(su.engine.model, c)
  {
    && |procs| == World(su)
    && forall r :: 0 <= r < World(su) ==> procs[r] == StepProc(su, r, |tokens|, StateOf(su, r, tokens, c))
  }

  /** A forward of the next input is possible. */
  ghost predicate Ready(su: Setup, tokens: seq<nat>, c: Cache) {
    && ValidSetup(su) && ValidCache(su.engine.model, c) && c.capacity == CacheCapacity(su.request)
    && |tokens| < su.request.effective
    && Length(c) + |InputOf(su.request, tokens)| == |su.request.prompt| + |tokens|
    && Known(su.engine.model, InputOf(su.request, tokens))
  }

  ghost function InputVectors(su: Setup, tokens: seq<nat>): (xs: Activation)
    requires Known(su.engine.model, InputOf(su.request, tokens))
    ensures |xs| == |InputOf(su.request, tokens)|
  {
    Embed(su.engine.model, InputOf(su.request, tokens))
  }

  ghost function Next(su: Setup, tokens: seq<nat>, c: Cache): Cache
    requires Ready(su, tokens, c)
  {
    Advanced(su, InputVectors(su, tokens), c)
  }

  lemma TagsExist(step: nat)
    requires step < STEP_SPAN
    ensures ActivationTag(step).Some? && TokenTag(step).Some? && DecisionTag(step).Some?
  {
  }

  /** Stage `r` computes its activation from what reaches it. */
  lemma StageGets(su: Setup, tokens: seq<nat>, c: Cache, r: nat)
    requires Ready(su, tokens, c) && r < World(su)
    ensures ValidCache(su.engine.model, Next(su, tokens, c))
    ensures var xs := InputVectors(su, tokens);
            && (r == 0 ==> StageTokens(su, InputOf(su.request, tokens), Slice(su, c, 0)) == Ok((Hidden(su, xs, c, 0), Slice(su, Next(su, tokens, c), 0))))
            && (r > 0 ==> && ValidActivation(su, |tokens|, Hidden(su, xs, c, r - 1))
                          && StageForward(su, r, Hidden(su, xs, c, r - 1), Slice(su, c, r)) == Ok((Hidden(su, xs, c, r), Slice(su, Next(su, tokens, c), r))))
  {
    hide StageForward, Hidden, Slice, Advanced, ValidActivation, Aligned, Length, Widths;
    var xs := InputVectors(su, tokens);
    StageStep(su, xs, c, r);
    assert AllWide(xs, su.width);
    if r > 0 {
      HiddenIsValid(su, xs, c, r - 1, |tokens|);
    }
  }

  /** The stage of rank `r` has computed its activation and is about to pass it on. */
  lemma StageComputes(su: Setup, tokens: seq<nat>, c: Cache, r: nat)
    requires Ready(su, tokens, c) && r < World(su)
    ensures ValidCache(su.engine.model, Next(su, tokens, c))
    ensures var step, xs := |tokens|, InputVectors(su, tokens);
            var top := StepProc(su, r, step, StateOf(su, r, tokens, c));
            var passing := PassOn(su, r, step, Hidden(su, xs, c, r), StateOf(su, r, tokens, Next(su, tokens, c)));
            && ActivationTag(step).Some?
            && (r == 0 ==> top == passing)
            && (r > 0 ==> && top.Recv? && top.source == r - 1 && top.want == WantTensor(ActivationTag(step).value)
                          && top.resume(Tensor(ActivationTag(step).value, Hidden(su, xs, c, r - 1))) == passing)
  {
    hide StageForward, StageTokens, Hidden, PassOn, Slice, Next, ValidActivation, StepTag, InputVectors, ValidCache;
    TagsExist(|tokens|);
    StageGets(su, tokens, c, r);
    hide Ready;
  }

  /** Rank `q` waits for its activation and answers it by passing on its own. */
  ghost predicate Relays(su: Setup, p: RankProc, step: nat, hiddens: seq<Activation>, states: seq<RankState>, q: nat)
    requires step < STEP_SPAN && 0 < q < |hiddens| && |states| == |hiddens|
  {
    TagsExist(step);
    var tag := ActivationTag(step).value;
    && p.Recv? && p.source == q - 1 && p.want == WantTensor(tag)
    && p.resume(Tensor(tag, hiddens[q - 1])) == PassOn(su, q, step, hiddens[q], states[q])
  }

  /** The activation travels from stage `r` to the last one. */
  lemma {:induction false} ChainRuns(su: Setup, procs: seq<RankProc>, step: nat, hiddens: seq<Activation>, states: seq<RankState>, r: nat) returns (end: seq<RankProc>)
    requires step < STEP_SPAN && |procs| == |hiddens| == |states| == World(su) && r < World(su)
    requires procs[r] == PassOn(su, r, step, hiddens[r], states[r])
    requires forall q :: r < q < World(su) ==> Relays(su, procs[q], step, hiddens, states, q)
    requires forall q :: 0 <= q < r ==> procs[q] == Agree(su, q, step, states[q])
    ensures ReachesWith(procs, end, World(su) - 1 - r) && |end| == World(su)
    ensures forall q :: 0 <= q < World(su) - 1 ==> end[q] == Agree(su, q, step, states[q])
    ensures end[World(su) - 1] == PassOn(su, World(su) - 1, step, hiddens[World(su) - 1], states[World(su) - 1])
    decreases World(su) - r
  {
    hide Agree, ReachesWith, StepTag, Finish;
    if r == World(su) - 1 {
      end := procs;
      WithNone(procs);
    } else {
      assert Relays(su, procs[r + 1], step, hiddens, states, r + 1);
      end := ChainRuns(su, Hand(procs, r, r + 1), step, hiddens, states, r + 1);
      OneMoreWith(procs, r, r + 1, end, World(su) - 2 - r);
    }
  }

  /** Rank 0 hands its decision to the ranks `d..`. */
  lemma {:induction false} AnnounceRuns(su: Setup, procs: seq<RankProc>, step: nat, d: nat, decision: Decision, states: seq<RankState>) returns (end: seq<RankProc>)
    requires step < STEP_SPAN && |procs| == |states| == World(su) && 1 <= d <= World(su)
    requires procs[0] == Announce(su, step, d, decision, states[0])
    requires forall q :: d <= q < World(su) ==> procs[q] == Agree(su, q, step, states[q])
    requires forall q :: 0 < q < d ==> procs[q] == Conclude(su, q, step, decision, states[q])
    ensures ReachesWith(procs, end, World(su) - d) && |end| == World(su)
    ensures forall q :: 0 <= q < World(su) ==> end[q] == Conclude(su, q, step, decision, states[q])
    decreases World(su) - d
  {
    hide Conclude, ReachesWith, StepTag;
    TagsExist(step);
    if d == World(su) {
      end := procs;
      WithNone(procs);
    } else {
      end := AnnounceRuns(su, Hand(procs, 0, d), step, d + 1, decision, states);
      OneMoreWith(procs, 0, d, end, World(su) - d - 1);
    }
  }

  /** From the last stage's activation to the end of the loop body on every rank. */
  lemma AgreementRuns(su: Setup, procs: seq<RankProc>, step: nat, hidden: Activation, states: seq<RankState>) returns (end: seq<RankProc>)
    requires step < STEP_SPAN && |procs| == |states| == World(su) >= 2 && hidden != []
    requires forall q :: 0 <= q < World(su) - 1 ==> procs[q] == Agree(su, q, step, states[q])
    requires procs[World(su) - 1] == PassOn(su, World(su) - 1, step, hidden, states[World(su) - 1])
    ensures ReachesWith(procs, end, World(su)) && |end| == World(su)
    ensures var token := su.engine.pick(Finish(su.engine.kern, su.engine.model, hidden));
            var decided := Decide(su.request, token, states[0]);
            forall q :: 0 <= q < World(su) ==>
              end[q] == Conclude(su, q, step, decided.0, if q == 0 then decided.1 else states[q])
  {
    hide Conclude, ReachesWith, StepTag, Finish;
    TagsExist(step);
    var last := World(su) - 1;
    var token := su.engine.pick(Finish(su.engine.kern, su.engine.model, hidden));
    var decided := Decide(su.request, token, states[0]);
    assert CanHand(procs, last, 0);
    var mid := Hand(procs, last, 0);
    assert mid[0] == Announce(su, step, 1, decided.0, decided.1);
    assert mid[last] == Agree(su, last, step, states[last]);
    hide Agree, Announce, Decide;
    end := AnnounceRuns(su, mid, step, 1, decided.0, states[0 := decided.1]);
    OneMoreWith(procs, last, 0, end, World(su) - 1);
  }

  // ---- one step of the whole pipeline ----

  ghost function Hiddens(su: Setup, tokens: seq<nat>, c: Cache): (hs: seq<Activation>)
    requires Ready(su, tokens, c)
    ensures |hs| == World(su)
    ensures forall r :: 0 <= r < World(su) ==> hs[r] == Hidden(su, InputVectors(su, tokens), c, r)
  {
    seq(World(su), r requires 0 <= r < World(su) => Hidden(su, InputVectors(su, tokens), c, r))
  }

  ghost function States(su: Setup, tokens: seq<nat>, c: Cache): (states: seq<RankState>)
    requires ValidSetup(su) && ValidCache(su.engine.model, c)
    ensures |states| == World(su)
    ensures forall r :: 0 <= r < World(su) ==> states[r] == StateOf(su, r, tokens, c)
  {
    seq(World(su), r requires 0 <= r < World(su) => StateOf(su, r, tokens, c))
  }

  /** The forward of the monolithic model, in terms of what the last stage computes. */
  lemma LastStageIsForward(su: Setup, tokens: seq<nat>, c: Cache)
    requires Ready(su, tokens, c)
    ensures var e, xs, input := su.engine, InputVectors(su, tokens), InputOf(su.request, tokens);
            && input != [] && Hidden(su, xs, c, World(su) - 1) != []
            && Forward(e.kern, e.shape, e.model, input, Length(c), c)
               == Ok((Finish(e.kern, e.model, Hidden(su, xs, c, World(su) - 1)), Next(su, tokens, c)))
  {
    var n := su.cuts[World(su)];
    assert su.engine.model.blocks[..n] == su.engine.model.blocks && c.layers[..n] == c.layers;
    hide RunBlocks, BlockCaches, Finish;
  }

  ghost function Selected(su: Setup, tokens: seq<nat>, c: Cache): nat
    requires Ready(su, tokens, c)
  {
    LastStageIsForward(su, tokens, c);
    su.engine.pick(Finish(su.engine.kern, su.engine.model, Hidden(su, InputVectors(su, tokens), c, World(su) - 1)))
  }

  /** Every rank computes its stage and relays it. */
  lemma RanksRelay(su: Setup, procs: seq<RankProc>, tokens: seq<nat>, c: Cache)
    requires Ready(su, tokens, c) && AtTop(su, procs, tokens, c)
    ensures ValidCache(su.engine.model, Next(su, tokens, c)) && |tokens| < STEP_SPAN
    ensures var hiddens, states := Hiddens(su, tokens, c), States(su, tokens, Next(su, tokens, c));
            && procs[0] == PassOn(su, 0, |tokens|, hiddens[0], states[0])
            && forall q :: 0 < q < World(su) ==> Relays(su, procs[q], |tokens|, hiddens, states, q)
  {
    hide StepProc, PassOn, StepTag, Hidden, StateOf, Next, InputVectors;
    StageComputes(su, tokens, c, 0);
    var hiddens, states := Hiddens(su, tokens, c), States(su, tokens, Next(su, tokens, c));
    forall q | 0 < q < World(su) ensures Relays(su, procs[q], |tokens|, hiddens, states, q) {
      StageComputes(su, tokens, c, q);
    }
  }

  /** Frames of one step: the activations, the token, and the decisions. */
  function StepFrames(su: Setup): nat {
    if World(su) == 0 then 0 else 2 * World(su) - 1
  }

  /** Chain and agreement after each other, for any activations and states. */
  lemma ChainThenAgreement(su: Setup, procs: seq<RankProc>, step: nat, hiddens: seq<Activation>, states: seq<RankState>) returns (end: seq<RankProc>)
    requires step < STEP_SPAN && |procs| == |hiddens| == |states| == World(su) >= 2 && hiddens[World(su) - 1] != []
    requires procs[0] == PassOn(su, 0, step, hiddens[0], states[0])
    requires forall q :: 0 < q < World(su) ==> Relays(su, procs[q], step, hiddens, states, q)
    ensures ReachesWith(procs, end, StepFrames(su)) && |end| == World(su)
    ensures var token := su.engine.pick(Finish(su.engine.kern, su.engine.model, hiddens[World(su) - 1]));
            var decided := Decide(su.request, token, states[0]);
            forall q :: 0 <= q < World(su) ==>
              end[q] == Conclude(su, q, step, decided.0, if q == 0 then decided.1 else states[q])
  {
    hide ReachesWith, PassOn, Agree, Conclude, StepTag, Decide, Finish, Relays;
    var mid := ChainRuns(su, procs, step, hiddens, states, 0);
    end := AgreementRuns(su, mid, step, hiddens[World(su) - 1], states);
    ThenWith(procs, mid, end, World(su) - 1, World(su));
  }

  /** From the top of the loop to the end of its body, on every rank. */
  lemma StepRuns(su: Setup, procs: seq<RankProc>, tokens: seq<nat>, c: Cache) returns (end: seq<RankProc>)
    requires Ready(su, tokens, c) && AtTop(su, procs, tokens, c)
    ensures ValidCache(su.engine.model, Next(su, tokens, c)) && |tokens| < STEP_SPAN
    ensures ReachesWith(procs, end, StepFrames(su)) && |end| == World(su)
    ensures var states := States(su, tokens, Next(su, tokens, c));
            var decided := Decide(su.request, Selected(su, tokens, c), states[0]);
            forall q :: 0 <= q < World(su) ==>
              end[q] == Conclude(su, q, |tokens|, decided.0, if q == 0 then decided.1 else states[q])
  {
    hide ReachesWith, StepProc, PassOn, Conclude, StepTag, Decide, Hidden, Finish, StateOf, Next, Relays, InputVectors, Forward;
    LastStageIsForward(su, tokens, c);
    RanksRelay(su, procs, tokens, c);
    var hiddens, states := Hiddens(su, tokens, c), States(su, tokens, Next(su, tokens, c));
    end := ChainThenAgreement(su, procs, |tokens|, hiddens, states);
  }

  // ---- the whole loop ----

  /** What the monolithic generation gives from here on. */
  ghost function Rest(su: Setup, tokens: seq<nat>, c: Cache): Result<Generated, ForwardError>
    requires ValidCache(su.engine.model, c)
  {
    Greedy(su.engine, su.request, InputOf(su.request, tokens), c, tokens)
  }

  /** Rank `r`'s report of a finished generation: the stage's part of the cache, and on rank 0 the tokens. */
  ghost function ReportOf(su: Setup, g: Generated, r: nat): RankReport
    requires ValidSetup(su) && ValidCache(su.engine.model, g.cache) && r < World(su)
  {
    RankReport(if r == 0 then g.tokens else [], g.reason, Slice(su, g.cache, r))
  }

  /** One turn of the monolithic loop. */
  lemma RestUnfolds(su: Setup, tokens: seq<nat>, c: Cache)
    requires Ready(su, tokens, c)
    ensures ValidCache(su.engine.model, Next(su, tokens, c))
    ensures var token, c' := Selected(su, tokens, c), Next(su, tokens, c);
            && token < |su.engine.model.embeddings|
            && (if token == su.request.eos then Rest(su, tokens, c) == Ok(Generated(tokens, Eos, c'))
                else if |tokens| + 1 >= su.request.effective
                then Rest(su, tokens, c) == Ok(Generated(tokens + [token], LimitReason(su.request), c'))
                else Ready(su, tokens + [token], c') && Rest(su, tokens, c) == Rest(su, tokens + [token], c'))
  {
    var e, q, input := su.engine, su.request, InputOf(su.request, tokens);
    LastStageIsForward(su, tokens, c);
    hide Hidden, Finish, InputVectors;
    GreedyUnfolds(e, q, input, c, tokens);
    hide Forward, Greedy, Next;
    assert [Selected(su, tokens, c)] == InputOf(q, tokens + [Selected(su, tokens, c)]);
  }

  /** Frames of `forwards` steps. */
  function LoopFrames(su: Setup, forwards: nat): nat {
    if forwards == 0 then 0 else StepFrames(su) + LoopFrames(su, forwards - 1)
  }

  /** From the top of the loop, every rank gets to the last barrier with its part of the result of the
  monolithic loop. */
  lemma {:induction false} LoopRuns(su: Setup, procs: seq<RankProc>, tokens: seq<nat>, c: Cache) returns (end: seq<RankProc>)
    requires Ready(su, tokens, c) && AtTop(su, procs, tokens, c)
    ensures Rest(su, tokens, c).Ok? && ValidCache(su.engine.model, Rest(su, tokens, c).value.cache)
    ensures |tokens| < Forwards(Rest(su, tokens, c).value) <= su.request.effective && |end| == World(su)
    ensures ReachesWith(procs, end, LoopFrames(su, Forwards(Rest(su, tokens, c).value) - |tokens|))
    ensures forall r :: 0 <= r < World(su) ==>
              end[r] == BarrierProc(World(su), r, 1, Done(ReportOf(su, Rest(su, tokens, c).value, r)))
    decreases su.request.effective - |tokens|
  {
    hide ReachesWith, StepProc, Selected, Rest, Next, Slice, BarrierProc;
    end := StepRuns(su, procs, tokens, c);
    RestUnfolds(su, tokens, c);
    var token, c' := Selected(su, tokens, c), Next(su, tokens, c);
    if token != su.request.eos && |tokens| + 1 < su.request.effective {
      assert AtTop(su, end, tokens + [token], c');
      var mid := end;
      end := LoopRuns(su, mid, tokens + [token], c');
      ThenWith(procs, mid, end, StepFrames(su), LoopFrames(su, Forwards(Rest(su, tokens, c).value) - |tokens| - 1));
    }
  }

  // ---- the whole run ----

  function Ranks(su: Setup): (procs: seq<RankProc>)
    ensures |procs| == World(su)
  {
    seq(World(su), r requires 0 <= r < World(su) => RankProgram(su, r))
  }

  /** Every rank has returned its report. */
  ghost function Reports(su: Setup, g: Generated): (procs: seq<RankProc>)
    requires ValidSetup(su) && ValidCache(su.engine.model, g.cache)
    ensures |procs| == World(su) && AllFinished(procs)
    ensures forall r :: 0 <= r < World(su) ==> procs[r] == Done(ReportOf(su, g, r))
  {
    seq(World(su), r requires 0 <= r < World(su) => Done(ReportOf(su, g, r)))
  }

  lemma FirstStateIs(su: Setup, r: nat)
    requires ValidSetup(su) && r < World(su)
    ensures FirstState(su, r) == StateOf(su, r, [], EmptyCache(su.engine.model, CacheCapacity(su.request)))
  {
    CutsInRange(su, r);
    var c := EmptyCache(su.engine.model, CacheCapacity(su.request));
    SliceIsStage(su, c, r);
    assert FirstState(su, r).cache.layers == Slice(su, c, r).layers;
  }

  /** Frames of a whole run: two barriers and the steps in between. */
  ghost function RunFrames(su: Setup, g: Generated): nat
    requires World(su) >= 2
  {
    4 * (World(su) - 1) + LoopFrames(su, Forwards(g))
  }

  lemma {:induction false} LoopFramesIs(su: Setup, forwards: nat)
    ensures LoopFrames(su, forwards) == forwards * StepFrames(su)
  {
    if forwards > 0 {
      LoopFramesIs(su, forwards - 1);
    }
  }

  lemma RunFramesIs(su: Setup, g: Generated)
    requires World(su) >= 2
    ensures RunFrames(su, g) == 4 * (World(su) - 1) + Forwards(g) * StepFrames(su) && StepFrames(su) == 2 * World(su) - 1
  {
    LoopFramesIs(su, Forwards(g));
  }

  /** The reports can be handed over to with exactly so many frames. */
  ghost predicate Deliverable(su: Setup, g: Result<Generated, ForwardError>)
    requires ValidSetup(su)
  {
    && g.Ok? && ValidCache(su.engine.model, g.value.cache) && 1 <= Forwards(g.value) <= su.request.effective
    && ReachesWith(Ranks(su), Reports(su, g.value), RunFrames(su, g.value))
  }

  lemma BarriersAround(su: Setup, tops: seq<RankProc>, mid: seq<RankProc>, ends: seq<RankProc>, loop: nat)
    requires |tops| == |mid| == |ends| == World(su) >= 2
    requires forall r :: 0 <= r < World(su) ==> tops[r] == StepProc(su, r, 0, FirstState(su, r))
    requires forall r :: 0 <= r < World(su) ==> mid[r] == BarrierProc(World(su), r, 1, ends[r])
    requires ReachesWith(tops, mid, loop)
    ensures ReachesWith(Ranks(su), ends, 4 * (World(su) - 1) + loop)
  {
    hide Reaches, ReachesWith, BarrierProc, StepProc;
    var barrier := 2 * (World(su) - 1);
    BarrierRuns(Ranks(su), 0, tops);
    BarrierRuns(mid, 1, ends);
    ThenWith(Ranks(su), tops, mid, barrier, loop);
    ThenWith(Ranks(su), mid, ends, barrier + loop, barrier);
  }

  ghost function FirstTops(su: Setup): (tops: seq<RankProc>)
    ensures |tops| == World(su)
    ensures forall r :: 0 <= r < World(su) ==> tops[r] == StepProc(su, r, 0, FirstState(su, r))
  {
    seq(World(su), r requires 0 <= r < World(su) => StepProc(su, r, 0, FirstState(su, r)))
  }

  lemma LoopStarts(su: Setup)
    requires ValidSetup(su)
    ensures var c := EmptyCache(su.engine.model, CacheCapacity(su.request));
            && Ready(su, [], c) && AtTop(su, FirstTops(su), [], c) && Rest(su, [], c) == Generate(su.engine, su.request)
  {
    hide StepProc, Greedy, FirstState;
    var c := EmptyCache(su.engine.model, CacheCapacity(su.request));
    forall r | 0 <= r < World(su) ensures FirstTops(su)[r] == StepProc(su, r, 0, StateOf(su, r, [], c)) {
      FirstStateIs(su, r);
    }
  }

  lemma PipelineRun(su: Setup)
    requires ValidSetup(su)
    ensures Deliverable(su, Generate(su.engine, su.request))
  {
    hide Reaches, ReachesWith, LoopFrames, Forwards, BarrierProc, StepProc, Rest, Generate, ReportOf, Ready, AtTop, FirstState;
    var c := EmptyCache(su.engine.model, CacheCapacity(su.request));
    LoopStarts(su);
    var mid := LoopRuns(su, FirstTops(su), [], c);
    var g := Rest(su, [], c).value;
    BarriersAround(su, FirstTops(su), mid, Reports(su, g), LoopFrames(su, Forwards(g)));
  }

  /** Every schedule ends with the reports of `g`, after the steps of exactly so many frames. */
  ghost predicate Serves(su: Setup, cap: Capacity, g: Result<Generated, ForwardError>)
    requires ValidSetup(su)
  {
    && g.Ok? && ValidCache(su.engine.model, g.value.cache) && 1 <= Forwards(g.value) <= su.request.effective
    && Settles(cap, Ranks(su), Reports(su, g.value), StepsFor(cap, RunFrames(su, g.value)))
  }

  /** The pipeline refines single-process generation: under every schedule and every link capacity a
  rank that returns has the tokens (on rank 0), the stop reason and its slice of the cache of
  `Generate`; no rank can fail or get stuck, and at the end no frame is in flight or set aside. Every
  schedule has the same number of steps, those of the two barriers and of 2 * ranks - 1 frames for each
  of at most `effective` forwards (`RunFramesIs`). */
  lemma PipelineSettles(su: Setup, cap: Capacity)
    requires ValidSetup(su)
    ensures Serves(su, cap, Generate(su.engine, su.request))
  {
    hide ReachesWith, Settles, Generate, RankProgram, LoopFrames;
    PipelineRun(su);
    var g := Generate(su.engine, su.request).value;
    EverySchedule(cap, Ranks(su), Reports(su, g), RunFrames(su, g));
  }

  /** The cuts of a balanced partition make a valid setup. */
  lemma BalancedCutsAreValid(su: Setup, stages: seq<StageAssignment>, worldSize: nat, tied: bool)
    requires ValidEngine(su.engine) && ValidRequest(su.engine, su.request) && su.request.effective <= STEP_SPAN
    requires Widths(su.engine.model.blocks, su.width) && AllWide(su.engine.model.embeddings, su.width)
    requires BalancedStages(stages, |su.engine.model.blocks|, worldSize, tied)
    requires |su.cuts| == worldSize + 1 && su.cuts[0] == 0
    requires forall r :: 0 <= r < worldSize ==> su.cuts[r + 1] == stages[r].layerEnd
    ensures ValidSetup(su)
    ensures forall r :: 0 <= r < worldSize ==> StageBlocks(su, r) == su.engine.model.blocks[stages[r].layerStart..stages[r].layerEnd]
  {
    forall r | 0 <= r < worldSize ensures su.cuts[r] == stages[r].layerStart {
      if r > 0 {
        assert stages[r - 1].layerEnd == stages[r].layerStart && su.cuts[(r - 1) + 1] == stages[r - 1].layerEnd;
      }
    }
    forall r, q | 0 <= r < q <= World(su) ensures su.cuts[r] < su.cuts[q] {
      CutsGrow(su, stages, worldSize, tied, r, q);
    }
  }

  lemma {:induction false} CutsGrow(su: Setup, stages: seq<StageAssignment>, worldSize: nat, tied: bool, r: nat, q: nat)
    requires BalancedStages(stages, |su.engine.model.blocks|, worldSize, tied)
    requires |su.cuts| == worldSize + 1 && r < q <= worldSize
    requires forall r :: 0 <= r < worldSize ==> su.cuts[r] == stages[r].layerStart && su.cuts[r + 1] == stages[r].layerEnd
    ensures su.cuts[r] < su.cuts[q]
    decreases q
  {
    assert su.cuts[q - 1] == stages[q - 1].layerStart && su.cuts[(q - 1) + 1] == stages[q - 1].layerEnd;
    if r < q - 1 {
      CutsGrow(su, stages, worldSize, tied, r, q - 1);
    }
  }
}
