/** One tensor-parallel rank as a program: embedding, layers and head over the rank's shards, joined by
collectives; the token decision of rank 0; and the barriers around the loop. */
module TensorParallel {
  import opened Options
  import opened Sequences
  import opened Network
  import opened Tags
  import opened Collectives
  import opened LinearAlgebra
  import opened Llama
  import opened Generation
  import opened TcpBarrier
  import opened TensorShards

  datatype TokenDecision = TokenDecision(step: nat, token: nat, emit: bool, continues: bool, reason: Option<StopReason>)

  /** What a rank reports; `collectives` is the number of collectives it has made. */
  datatype TpReport = TpReport(tokens: seq<nat>, reason: StopReason, cache: Cache, collectives: nat)

  type TpProc = Proc<seq<real>, TokenDecision, TpReport>

  /** The manifest: model and request, tensor-parallel size, all-reduce algorithm, hidden width. */
  datatype TpSetup = TpSetup(engine: Engine, request: Request, size: nat, ring: bool, width: nat)

  /** What a rank carries: the next input, its position, the tokens so far, its cache, and the number of
  the next collective. */
  datatype TpState = TpState(input: seq<nat>, position: nat, tokens: seq<nat>, cache: Cache, sequence: nat)

  /** The gathered logits are one row on every rank, so their other axis agrees. */
  function OneRow(x: seq<real>, y: seq<real>): bool { true }

  function RealWorld(su: TpSetup): World<real> {
    World(su.size, RealAdd, FourBytes, OneRow)
  }

  // ---- local arithmetic ----

  function LinearAll(weight: Matrix, xs: seq<Vec>): (ys: seq<Vec>)
    ensures |ys| == |xs|
  {
    seq(|xs|, i requires 0 <= i < |xs| => Linear(weight, xs[i]))
  }

  function GatedAll(kern: Kernels, b: Block, xs: seq<Vec>): (ys: seq<Vec>)
    ensures |ys| == |xs|
  {
    seq(|xs|, i requires 0 <= i < |xs| => Gated(kern, b, xs[i]))
  }

  function AddAll(xs: seq<Vec>, ys: seq<Vec>): (zs: seq<Vec>)
    ensures |zs| == Min(|xs|, |ys|)
  {
    seq(Min(|xs|, |ys|), i requires 0 <= i < Min(|xs|, |ys|) => Add(xs[i], ys[i]))
  }

  /** The masked lookup of every token in the rank's vocabulary rows. */
  function MaskedRows(su: TpSetup, r: nat, tokens: seq<nat>): (rows: seq<Vec>)
    requires su.size > 0 && Rows(su.engine.model.embeddings, su.size, r) != []
    ensures |rows| == |tokens|
  {
    var shard := Rows(su.engine.model.embeddings, su.size, r);
    var start := r * (|su.engine.model.embeddings| / su.size);
    seq(|tokens|, i requires 0 <= i < |tokens| => MaskedRow(shard, start, tokens[i]))
  }

  // ---- collectives ----

  /** All-reduce of one vector per position. */
  function SumAcross(su: TpSetup, r: nat, sequence: nat, partial: seq<Vec>, k: seq<Vec> -> TpProc): TpProc
    requires r < su.size
  {
    CallProc(RealWorld(su), if su.ring then RingAllReduceCall else CentralizedAllReduceCall, r, sequence,
             Join(partial), ThenShape(|partial|, su.width, k))
  }

  /** The summed elements in the shape of the input. */
  function ThenShape(positions: nat, width: nat, k: seq<Vec> -> TpProc): Output<real> -> TpProc {
    (o: Output<real>) => if o.tensor.None? then Failed else k(Heads(o.tensor.value, positions, width))
  }

  // ---- one step ----

  /** The top of the loop. Running out of steps without a stop reason is an error. */
  function TpStep(su: TpSetup, r: nat, step: nat, st: TpState): TpProc
    requires r < su.size
    decreases su.request.effective as int - step, 2, 0, 0
  {
    var m := su.engine.model;
    if step >= su.request.effective then Failed
    else if st.input == [] || st.position != Length(st.cache) || |st.cache.layers| != |m.blocks| then Failed
    else if st.position + |st.input| > st.cache.capacity then Failed
    else if !Known(m, st.input) || Rows(m.embeddings, su.size, r) == [] then Failed
    else SumAcross(su, r, st.sequence, MaskedRows(su, r, st.input), ThenBlocks(su, r, step, st.(sequence := st.sequence + 1)))
  }

  function ThenBlocks(su: TpSetup, r: nat, step: nat, st: TpState): seq<Vec> -> TpProc
    requires r < su.size && step < su.request.effective
    decreases su.request.effective as int - step, 1, |su.engine.model.blocks| + 1, 0
  {
    (hidden: seq<Vec>) => AtLayer(su, r, step, st, 0, hidden)
  }

  /** Attention half of a layer: append to the cache, attend with the local heads, all-reduce. */
  function AtLayer(su: TpSetup, r: nat, step: nat, st: TpState, layer: nat, hidden: seq<Vec>): TpProc
    requires r < su.size && step < su.request.effective
    decreases su.request.effective as int - step, 1, |su.engine.model.blocks| as int - layer, 3
  {
    var e := su.engine;
    if layer >= |e.model.blocks| then AtLogits(su, r, step, st, hidden)
    else if layer >= |st.cache.layers| || |st.cache.layers[layer].keys| != |st.cache.layers[layer].values| then Failed
    else if |st.cache.layers[layer].keys| + |hidden| > st.cache.capacity then Failed
    else
      var s, b, c := ShardShape(e.shape, su.size), ShardBlock(e.model.blocks[layer], su.size, r), st.cache.layers[layer];
      var xs := NormAll(e.kern, b.inputNorm, hidden);
      var st' := st.(cache := st.cache.(layers := st.cache.layers[layer := AppendRows(e.kern, s, b, xs, st.position, c)]),
                     sequence := st.sequence + 1);
      SumAcross(su, r, st.sequence, LinearAll(b.o, Attend(e.kern, s, b, xs, st.position, c)), ThenMlp(su, r, step, st', layer, hidden))
  }

  function ThenMlp(su: TpSetup, r: nat, step: nat, st: TpState, layer: nat, hidden: seq<Vec>): seq<Vec> -> TpProc
    requires r < su.size && step < su.request.effective && layer < |su.engine.model.blocks|
    decreases su.request.effective as int - step, 1, |su.engine.model.blocks| as int - layer, 2
  {
    (attention: seq<Vec>) => AtMlp(su, r, step, st, layer, AddAll(hidden, attention))
  }

  /** Feed-forward half of a layer. */
  function AtMlp(su: TpSetup, r: nat, step: nat, st: TpState, layer: nat, hidden: seq<Vec>): TpProc
    requires r < su.size && step < su.request.effective && layer < |su.engine.model.blocks|
    decreases su.request.effective as int - step, 1, |su.engine.model.blocks| as int - layer, 1
  {
    var e := su.engine;
    var b := ShardBlock(e.model.blocks[layer], su.size, r);
    SumAcross(su, r, st.sequence, LinearAll(b.down, GatedAll(e.kern, b, NormAll(e.kern, b.postNorm, hidden))),
              ThenNextLayer(su, r, step, st.(sequence := st.sequence + 1), layer, hidden))
  }

  function ThenNextLayer(su: TpSetup, r: nat, step: nat, st: TpState, layer: nat, hidden: seq<Vec>): seq<Vec> -> TpProc
    requires r < su.size && step < su.request.effective && layer < |su.engine.model.blocks|
    decreases su.request.effective as int - step, 1, |su.engine.model.blocks| as int - layer, 0
  {
    (mlp: seq<Vec>) => AtLayer(su, r, step, st, layer + 1, AddAll(hidden, mlp))
  }

  /** Local logits of the last position, gathered along the vocabulary. */
  function AtLogits(su: TpSetup, r: nat, step: nat, st: TpState, hidden: seq<Vec>): TpProc
    requires r < su.size && step < su.request.effective
    decreases su.request.effective as int - step, 0, 4, 0
  {
    var e := su.engine;
    if hidden == [] then Failed
    else
      var last := Norm(e.kern, e.model.finalNorm, hidden[|hidden| - 1]);
      CallProc(RealWorld(su), AllGatherCall, r, st.sequence, Linear(Rows(e.model.head, su.size, r), last),
               ThenLogits(su, r, step, st.(sequence := st.sequence + 1)))
  }

  function ThenLogits(su: TpSetup, r: nat, step: nat, st: TpState): Output<real> -> TpProc
    requires r < su.size && step < su.request.effective
    decreases su.request.effective as int - step, 0, 3, 0
  {
    (o: Output<real>) =>
      if o.tensor.None? || |o.tensor.value| != |su.engine.model.head| then Failed
      else AtDecision(su, r, step, st, o.tensor.value)
  }

  /** Rank 0's decision about the token it selected. */
  function DecisionFor(q: Request, step: nat, token: nat): TokenDecision {
    var emit, atLimit := token != q.eos, step + 1 == q.effective;
    var reason :=
      if !emit then Some(Eos)
      else if atLimit && q.effective < q.requested then Some(ContextLimit)
      else if atLimit then Some(MaxNewTokens)
      else None;
    TokenDecision(step, token, emit, reason.None?, reason)
  }

  function AtDecision(su: TpSetup, r: nat, step: nat, st: TpState, logits: Vec): TpProc
    requires r < su.size && step < su.request.effective
    decreases su.request.effective as int - step, 0, 2, 0
  {
    if r == 0 then Announce(su, step, 1, DecisionFor(su.request, step, su.engine.pick(logits)), st)
    else AwaitDecision(su, r, step, st)
  }

  function AwaitDecision(su: TpSetup, r: nat, step: nat, st: TpState): TpProc
    requires r < su.size && step < su.request.effective
    decreases su.request.effective as int - step, 0, 1, 0
  {
    Recv(0, WantControl(DECISION_BASE + step), (f: Frame<seq<real>, TokenDecision>) =>
      if !f.Control? then Failed else Conclude(su, r, step, st, f.control))
  }

  /** Rank 0 sends its decision to the ranks `peer..`. */
  function Announce(su: TpSetup, step: nat, peer: nat, decision: TokenDecision, st: TpState): TpProc
    requires 0 < su.size && step < su.request.effective
    decreases su.request.effective as int - step, 0, 1, su.size as int - peer
  {
    if peer >= su.size then Conclude(su, 0, step, st, decision)
    else Send(peer, Control(DECISION_BASE + step, decision), Announce(su, step, peer + 1, decision, st))
  }

  /** The end of the loop body: the same bookkeeping on every rank. */
  function Conclude(su: TpSetup, r: nat, step: nat, st: TpState, decision: TokenDecision): TpProc
    requires r < su.size && step < su.request.effective
    decreases su.request.effective as int - step, 0, 0, 0
  {
    if decision.step != step then Failed
    else
      var tokens := if decision.emit then st.tokens + [decision.token] else st.tokens;
      if !decision.continues then
        match decision.reason
        case None => Failed
        case Some(reason) => BarrierProc(su.size, r, 1, Done(TpReport(tokens, reason, st.cache, st.sequence)))
      else TpStep(su, r, step + 1, TpState([decision.token], st.position + |st.input|, tokens, st.cache, st.sequence))
  }

  function FirstState(su: TpSetup): TpState {
    TpState(su.request.prompt, 0, [],
            Cache(seq(|su.engine.model.blocks|, _ => LayerCache([], [])), CacheCapacity(su.request)), 0)
  }

  /** A rank from the first barrier on. */
  function TpProgram(su: TpSetup, r: nat): TpProc
    requires r < su.size
  {
    BarrierProc(su.size, r, 0, TpStep(su, r, 0, FirstState(su)))
  }

  // ---- one turn of the program at each of its points ----

  /** The checks before a layer's cache append. */
  predicate LayerFits(st: TpState, layer: nat, n: nat) {
    && layer < |st.cache.layers| && |st.cache.layers[layer].keys| == |st.cache.layers[layer].values|
    && |st.cache.layers[layer].keys| + n <= st.cache.capacity
  }

  /** The state once the attention of a layer has appended to its cache and used one collective. */
  ghost function AfterAttending(su: TpSetup, r: nat, st: TpState, layer: nat, hidden: seq<Vec>): TpState
    requires su.size > 0 && layer < |su.engine.model.blocks| && LayerFits(st, layer, |hidden|)
  {
    var e, c := su.engine, st.cache.layers[layer];
    var s, b := ShardShape(e.shape, su.size), ShardBlock(e.model.blocks[layer], su.size, r);
    var rows := AppendRows(e.kern, s, b, NormAll(e.kern, b.inputNorm, hidden), st.position, c);
    st.(cache := st.cache.(layers := st.cache.layers[layer := rows]), sequence := st.sequence + 1)
  }

  lemma AttentionTurn(su: TpSetup, r: nat, step: nat, st: TpState, layer: nat, hidden: seq<Vec>)
    requires r < su.size && step < su.request.effective && layer < |su.engine.model.blocks|
    ensures !LayerFits(st, layer, |hidden|) ==> AtLayer(su, r, step, st, layer, hidden) == Failed
    ensures LayerFits(st, layer, |hidden|) ==>
              var e, c := su.engine, st.cache.layers[layer];
              var s, b := ShardShape(e.shape, su.size), ShardBlock(e.model.blocks[layer], su.size, r);
              AtLayer(su, r, step, st, layer, hidden)
              == SumAcross(su, r, st.sequence, LinearAll(b.o, Attend(e.kern, s, b, NormAll(e.kern, b.inputNorm, hidden), st.position, c)),
                           ThenMlp(su, r, step, AfterAttending(su, r, st, layer, hidden), layer, hidden))
  {
    hide SumAcross, ThenMlp, Attend, AppendRows, ShardShape, ShardBlock, NormAll, LinearAll, AtLogits;
  }

  /** The checks at the top of the loop. */
  predicate InputFits(su: TpSetup, r: nat, st: TpState)
    requires r < su.size
  {
    && st.input != [] && st.position == Length(st.cache) && |st.cache.layers| == |su.engine.model.blocks|
    && st.position + |st.input| <= st.cache.capacity && Known(su.engine.model, st.input)
    && Rows(su.engine.model.embeddings, su.size, r) != []
  }

  lemma TopTurn(su: TpSetup, r: nat, step: nat, st: TpState)
    requires r < su.size && step < su.request.effective
    ensures TpStep(su, r, step, st) ==
            if InputFits(su, r, st) then SumAcross(su, r, st.sequence, MaskedRows(su, r, st.input), ThenBlocks(su, r, step, st.(sequence := st.sequence + 1)))
            else Failed
  {
    hide Length, SumAcross, ThenBlocks, MaskedRows, Rows, Known;
  }

  function LogitsCall(su: TpSetup, r: nat, step: nat, st: TpState, hidden: seq<Vec>): TpProc
    requires r < su.size && step < su.request.effective && hidden != []
  {
    CallProc(RealWorld(su), AllGatherCall, r, st.sequence,
             Linear(Rows(su.engine.model.head, su.size, r), Norm(su.engine.kern, su.engine.model.finalNorm, hidden[|hidden| - 1])),
             ThenLogits(su, r, step, st.(sequence := st.sequence + 1)))
  }

  lemma LogitsTurn(su: TpSetup, r: nat, step: nat, st: TpState, hidden: seq<Vec>)
    requires r < su.size && step < su.request.effective
    ensures AtLayer(su, r, step, st, |su.engine.model.blocks|, hidden) == if hidden == [] then Failed else LogitsCall(su, r, step, st, hidden)
  {
    hide CallProc, ThenLogits, Rows, Norm, Linear;
    assert AtLayer(su, r, step, st, |su.engine.model.blocks|, hidden) == AtLogits(su, r, step, st, hidden);
  }

  lemma OutOfSteps(su: TpSetup, r: nat, step: nat, st: TpState)
    requires r < su.size && step >= su.request.effective
    ensures TpStep(su, r, step, st) == Failed
  {}
}
