/** One pipeline rank as a program: the activation chain, token feedback to rank 0, the decision
broadcast, and the two barriers around the loop. */
module Pipeline {
  import opened Options
  import opened Network
  import opened Tags
  import opened LinearAlgebra
  import opened Llama
  import opened Generation
  import opened TcpBarrier

  type Activation = seq<Vec>

  datatype Decision = Continue | Stop(reason: StopReason)

  datatype PipelineControl = TokenMessage(step: nat, token: nat) | DecisionMessage(step: nat, decision: Decision)

  datatype RankReport = RankReport(tokens: seq<nat>, reason: StopReason, cache: Cache)

  type RankProc = Proc<Activation, PipelineControl, RankReport>

  /** The manifest every rank works from: model, request, hidden width, and the layer cuts of the stages. */
  datatype Setup = Setup(engine: Engine, request: Request, width: nat, cuts: seq<nat>)

  /** What a rank carries from one step to the next; only rank 0 fills in tokens. */
  datatype RankState = RankState(previous: Option<nat>, tokens: seq<nat>, cache: Cache)

  function World(su: Setup): nat {
    if |su.cuts| == 0 then 0 else |su.cuts| - 1
  }

  function LastRank(su: Setup): nat {
    if World(su) == 0 then 0 else World(su) - 1
  }

  /** Layers of stage `r`; empty when the cuts do not make sense. */
  function StageBlocks(su: Setup, r: nat): seq<Block> {
    if r + 1 < |su.cuts| && su.cuts[r] <= su.cuts[r + 1] <= |su.engine.model.blocks|
    then su.engine.model.blocks[su.cuts[r]..su.cuts[r + 1]] else []
  }

  /** `forward_hidden`: the stage's blocks over incoming activations. */
  function StageForward(su: Setup, r: nat, xs: Activation, c: Cache): Result<(Activation, Cache), ForwardError> {
    var blocks := StageBlocks(su, r);
    if xs == [] then Err(EmptyInput)
    else if |c.layers| != |blocks| || !Aligned(c.layers, Length(c)) then Err(LayerMismatch)
    else if Length(c) + |xs| > c.capacity then Err(CacheCapacityExceeded)
    else Ok((RunBlocks(su.engine.kern, su.engine.shape, blocks, xs, Length(c), c.layers),
             c.(layers := BlockCaches(su.engine.kern, su.engine.shape, blocks, xs, Length(c), c.layers))))
  }

  /** `forward_tokens`: embeddings first, on the first stage. */
  function StageTokens(su: Setup, tokens: seq<nat>, c: Cache): Result<(Activation, Cache), ForwardError> {
    if tokens == [] then Err(EmptyInput)
    else if !Known(su.engine.model, tokens) then Err(UnknownToken)
    else StageForward(su, 0, Embed(su.engine.model, tokens), c)
  }

  /** `[1, S, hidden]` in prefill, `[1, 1, hidden]` in decode. */
  predicate ValidActivation(su: Setup, step: nat, xs: Activation) {
    (forall i :: 0 <= i < |xs| ==> |xs[i]| == su.width) && (step > 0 ==> |xs| == 1)
  }

  // ---- the loop of one rank ----

  /** From the top of the loop: obtain the input of this step and run the stage. */
  function StepProc(su: Setup, r: nat, step: nat, st: RankState): RankProc
    decreases STEP_SPAN as int - step, 4
  {
    if step >= STEP_SPAN then Failed  // the step tags are exhausted
    else if r == 0 then
      if step > 0 && st.previous.None? then Failed
      else
        var input := if step == 0 then su.request.prompt else [st.previous.value];
        match StageTokens(su, input, st.cache)
        case Err(_) => Failed
        case Ok(out) => PassOn(su, r, step, out.0, st.(cache := out.1))
    else
      Recv(r - 1, WantTensor(ActivationTag(step).value), (f: Frame<Activation, PipelineControl>) =>
        if !f.Tensor? || !ValidActivation(su, step, f.tensor) then Failed else
        match StageForward(su, r, f.tensor, st.cache)
        case Err(_) => Failed
        case Ok(out) => PassOn(su, r, step, out.0, st.(cache := out.1)))
  }

  /** Send the activation to the next stage, or select a token and feed it back to rank 0. */
  function PassOn(su: Setup, r: nat, step: nat, hidden: Activation, st: RankState): RankProc
    requires step < STEP_SPAN
    decreases STEP_SPAN as int - step, 3
  {
    if r + 1 < World(su) then Send(r + 1, Tensor(ActivationTag(step).value, hidden), Agree(su, r, step, st))
    else if hidden == [] then Failed
    else
      var token := su.engine.pick(Finish(su.engine.kern, su.engine.model, hidden));
      Send(0, Control(TokenTag(step).value, TokenMessage(step, token)), Agree(su, r, step, st))
  }

  /** Rank 0 waits for the token and decides; every other rank waits for the decision. */
  function Agree(su: Setup, r: nat, step: nat, st: RankState): RankProc
    requires step < STEP_SPAN
    decreases STEP_SPAN as int - step, 2
  {
    if r == 0 then
      Recv(LastRank(su), WantControl(TokenTag(step).value), (f: Frame<Activation, PipelineControl>) =>
        if !f.Control? || !f.control.TokenMessage? || f.control.step != step then Failed
        else
          var decided := Decide(su.request, f.control.token, st);
          Announce(su, step, 1, decided.0, decided.1))
    else
      Recv(0, WantControl(DecisionTag(step).value), (f: Frame<Activation, PipelineControl>) =>
        if !f.Control? || !f.control.DecisionMessage? || f.control.step != step then Failed
        else Conclude(su, r, step, f.control.decision, st))
  }

  /** Rank 0's bookkeeping for the token selected in this step. */
  function Decide(q: Request, token: nat, st: RankState): (Decision, RankState) {
    if token == q.eos then (Stop(Eos), st)
    else
      var st' := st.(tokens := st.tokens + [token], previous := Some(token));
      (if |st'.tokens| >= q.effective then Stop(LimitReason(q)) else Continue, st')
  }

  /** Rank 0 sends its decision to the ranks `destination..`. */
  function Announce(su: Setup, step: nat, destination: nat, decision: Decision, st: RankState): RankProc
    requires step < STEP_SPAN
    decreases STEP_SPAN as int - step, 1, World(su) - destination
  {
    if destination >= World(su) then Conclude(su, 0, step, decision, st)
    else Send(destination, Control(DecisionTag(step).value, DecisionMessage(step, decision)),
              Announce(su, step, destination + 1, decision, st))
  }

  /** The end of the loop body: next step, or the final barrier and the report. */
  function Conclude(su: Setup, r: nat, step: nat, decision: Decision, st: RankState): RankProc
    requires step < STEP_SPAN
    decreases STEP_SPAN as int - step, 0
  {
    match decision
    case Continue => StepProc(su, r, step + 1, st)
    case Stop(reason) => BarrierProc(World(su), r, 1, Done(RankReport(st.tokens, reason, st.cache)))
  }

  /** A rank from the first barrier on. */
  function RankProgram(su: Setup, r: nat): RankProc {
    BarrierProc(World(su), r, 0, StepProc(su, r, 0, FirstState(su, r)))
  }

  function FirstState(su: Setup, r: nat): RankState {
    RankState(None, [], Cache(seq(|StageBlocks(su, r)|, _ => LayerCache([], [])), CacheCapacity(su.request)))
  }
}
