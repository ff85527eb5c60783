/** One tensor-parallel rank as it runs: the layer loop around the collectives and the step loop. */
module TensorRank {
  import opened Options
  import opened Arithmetic
  import opened Sequences
  import opened Network
  import opened Tags
  import opened Collectives
  import opened Endpoints
  import opened Histories
  import opened NativeCollectives
  import opened LinearAlgebra
  import opened Llama
  import opened Generation
  import opened TcpBarrier
  import opened TensorShards
  import opened TensorParallel
  import opened TensorParallelRuns

  datatype RankError = NoAnswer | UnexpectedMessage | CollectiveFailed | InvalidInput | CapacityExceeded | StaleDecision | NoStopReason

  /** `VocabParallelEmbedding::forward` before the all-reduce: local row numbers and the ownership mask,
  token by token. */
  method LocalLookups(start: nat, end: nat, vocabulary: nat, tokens: seq<nat>) returns (result: Result<(seq<nat>, seq<real>), RankError>)
    ensures result.Ok? <==> forall i :: 0 <= i < |tokens| ==> tokens[i] < vocabulary
    ensures result.Ok? ==>
              && |result.value.0| == |result.value.1| == |tokens|
              && forall i :: 0 <= i < |tokens| ==>
                   && result.value.0[i] == (if start <= tokens[i] < end then tokens[i] - start else 0)
                   && result.value.1[i] == (if start <= tokens[i] < end then 1.0 else 0.0)
  {
    var localIds: seq<nat>, mask: seq<real> := [], [];
    for n := 0 to |tokens|
      invariant |localIds| == |mask| == n
      invariant forall i :: 0 <= i < n ==> tokens[i] < vocabulary
      invariant forall i :: 0 <= i < n ==>
                  && localIds[i] == (if start <= tokens[i] < end then tokens[i] - start else 0)
                  && mask[i] == (if start <= tokens[i] < end then 1.0 else 0.0)
    {
      var id := tokens[n];
      if id >= vocabulary {
        return Err(InvalidInput);
      }
      var owned := start <= id < end;
      localIds := localIds + [if owned then id - start else 0];
      mask := mask + [if owned then 1.0 else 0.0];
    }
    return Ok((localIds, mask));
  }

  /** The masked rows of all tokens: a local row, or row zero of the shard times zero. */
  method LookUp(su: TpSetup, r: nat, tokens: seq<nat>) returns (result: Result<seq<Vec>, RankError>)
    requires r < su.size && Rows(su.engine.model.embeddings, su.size, r) != []
    ensures result.Ok? <==> Known(su.engine.model, tokens)
    ensures result.Ok? ==> result.value == MaskedRows(su, r, tokens)
  {
    hide Rows;
    var shard := Rows(su.engine.model.embeddings, su.size, r);
    var start := r * (|su.engine.model.embeddings| / su.size);
    var local := LocalLookups(start, start + |shard|, |su.engine.model.embeddings|, tokens);
    if local.Err? {
      return Err(local.error);
    }
    var localIds, mask := local.value.0, local.value.1;
    var rows := seq(|tokens|, i requires 0 <= i < |tokens| && localIds[i] < |shard| => Map(v => v * mask[i], shard[localIds[i]]));
    assert forall i :: 0 <= i < |tokens| ==> rows[i] == MaskedRow(shard, start, tokens[i]);
    return Ok(rows);
  }

  class Rank {
    const setup: TpSetup
    const rank: nat
    const communicator: Communicator<real, TokenDecision, TpReport>
    var input: seq<nat>
    var position: nat
    var generatedTokens: seq<nat>
    var cache: Cache

    ghost predicate Valid()
      reads this, communicator
    {
      && rank < setup.size && communicator.world == RealWorld(setup) && communicator.rank == rank
      && communicator.endpoint.rank == rank && communicator.endpoint.size == setup.size
    }

    function State(): TpState
      reads this, communicator
    {
      TpState(input, position, generatedTokens, cache, communicator.nextSequence)
    }

    ghost function Script(): TpProc
      reads this, communicator, communicator.endpoint
    {
      communicator.endpoint.script
    }

    constructor (setup: TpSetup, communicator: Communicator<real, TokenDecision, TpReport>)
      requires communicator.rank < setup.size && communicator.world == RealWorld(setup) && communicator.nextSequence == 0
      requires communicator.endpoint.rank == communicator.rank && communicator.endpoint.size == setup.size
      ensures this.setup == setup && this.communicator == communicator && Valid() && State() == FirstState(setup)
    {
      this.setup, this.communicator, this.rank := setup, communicator, communicator.rank;
      input, position, generatedTokens, cache := setup.request.prompt, 0, [], FirstState(setup).cache;
    }

    /** All-reduce of one vector per position. */
    method Sum(partial: seq<Vec>, ghost k: seq<Vec> -> TpProc) returns (result: Result<seq<Vec>, RankError>)
      requires Valid() && Script() == SumAcross(setup, rank, communicator.nextSequence, partial, k)
      modifies communicator, communicator.endpoint
      ensures communicator.endpoint.Fate() == old(communicator.endpoint.Fate())
      ensures Valid()
      ensures result.Ok? ==> communicator.nextSequence == old(communicator.nextSequence) + 1 && Script() == k(result.value)
      ensures result.Err? ==> (result.error == NoAnswer && communicator.endpoint.Starved()) || Script() == Failed
    {
      hide CallProc;
      var call := if setup.ring then RingAllReduceCall else CentralizedAllReduceCall;
      var output := communicator.Run(call, Join(partial), ThenShape(|partial|, setup.width, k));
      if output.Err? {
        return Err(if output.error == TimedOut then NoAnswer else CollectiveFailed);
      }
      if output.value.tensor.None? {
        return Err(CollectiveFailed);
      }
      return Ok(Heads(output.value.tensor.value, |partial|, setup.width));
    }

    /** Appends to the cache and attends with the local heads; what remains is the all-reduce. */
    method AttendLocally(step: nat, layer: nat, hidden: seq<Vec>) returns (result: Result<seq<Vec>, RankError>)
      requires Valid() && step < setup.request.effective && layer < |setup.engine.model.blocks|
      requires Script() == AtLayer(setup, rank, step, State(), layer, hidden)
      modifies this`cache
      ensures Valid()
      ensures result.Ok? ==>
                Script() == SumAcross(setup, rank, communicator.nextSequence, result.value,
                                      ThenMlp(setup, rank, step, State().(sequence := communicator.nextSequence + 1), layer, hidden))
      ensures result.Err? ==> Script() == Failed
    {
      hide SumAcross, Attend, AppendRows, LinearAll, NormAll, ShardBlock, ShardShape, AddAll, AtLayer, AtMlp;
      AttentionTurn(setup, rank, step, State(), layer, hidden);
      if !LayerFits(State(), layer, |hidden|) {
        return Err(CapacityExceeded);
      }
      var e, c := setup.engine, cache.layers[layer];
      var s, b := ShardShape(e.shape, setup.size), ShardBlock(e.model.blocks[layer], setup.size, rank);
      var xs := NormAll(e.kern, b.inputNorm, hidden);
      cache := cache.(layers := cache.layers[layer := AppendRows(e.kern, s, b, xs, position, c)]);
      return Ok(LinearAll(b.o, Attend(e.kern, s, b, xs, position, c)));
    }

    /** First half of a layer: attend with the local heads, all-reduce. */
    method RunAttention(step: nat, layer: nat, hidden: seq<Vec>) returns (result: Result<seq<Vec>, RankError>)
      requires Valid() && step < setup.request.effective && layer < |setup.engine.model.blocks|
      requires Script() == AtLayer(setup, rank, step, State(), layer, hidden)
      modifies this`cache, communicator, communicator.endpoint
      ensures communicator.endpoint.Fate() == old(communicator.endpoint.Fate())
      ensures result.Ok? ==>
                Valid() && communicator.nextSequence == old(communicator.nextSequence) + 1
                && Script() == AtMlp(setup, rank, step, State(), layer, AddAll(hidden, result.value))
      ensures result.Err? ==> (result.error == NoAnswer && communicator.endpoint.Starved()) || Script() == Failed
    {
      hide SumAcross, AddAll, AtLayer, AtMlp;
      result := AttendLocally(step, layer, hidden);
      if result.Err? {
        return;
      }
      ghost var k := ThenMlp(setup, rank, step, State().(sequence := communicator.nextSequence + 1), layer, hidden);
      result := Sum(result.value, k);
    }

    /** Second half: the feed-forward network over the rank's features, and its all-reduce. */
    method RunMlp(step: nat, layer: nat, hidden: seq<Vec>) returns (result: Result<seq<Vec>, RankError>)
      requires Valid() && step < setup.request.effective && layer < |setup.engine.model.blocks|
      requires Script() == AtMlp(setup, rank, step, State(), layer, hidden)
      modifies communicator, communicator.endpoint
      ensures communicator.endpoint.Fate() == old(communicator.endpoint.Fate())
      ensures result.Ok? ==>
                Valid() && communicator.nextSequence == old(communicator.nextSequence) + 1
                && Script() == AtLayer(setup, rank, step, State(), layer + 1, AddAll(hidden, result.value))
      ensures result.Err? ==> (result.error == NoAnswer && communicator.endpoint.Starved()) || Script() == Failed
    {
      hide SumAcross, LinearAll, NormAll, GatedAll, ShardBlock, AddAll, AtLayer;
      var e := setup.engine;
      var b := ShardBlock(e.model.blocks[layer], setup.size, rank);
      ghost var k := ThenNextLayer(setup, rank, step, State().(sequence := communicator.nextSequence + 1), layer, hidden);
      result := Sum(LinearAll(b.down, GatedAll(e.kern, b, NormAll(e.kern, b.postNorm, hidden))), k);
    }

    /** `forward_observed`: the embedding, every layer, and the gathered logits. */
    method Forward(step: nat) returns (result: Result<Vec, RankError>)
      requires Valid() && step < setup.request.effective
      requires Script() == TpStep(setup, rank, step, State())
      modifies this`cache, communicator, communicator.endpoint
      ensures communicator.endpoint.Fate() == old(communicator.endpoint.Fate())
      ensures result.Ok? ==>
                Valid() && communicator.nextSequence == old(communicator.nextSequence) + 2 * |setup.engine.model.blocks| + 2
                && Script() == AtDecision(setup, rank, step, State(), result.value)
      ensures result.Err? ==> (result.error == NoAnswer && communicator.endpoint.Starved()) || Script() == Failed
    {
      hide TpStep, SumAcross, AtLayer, AtMlp, AtDecision, AtLogits, MaskedRows, AddAll;
      TopTurn(setup, rank, step, State());
      if input == [] || position != Length(cache) || |cache.layers| != |setup.engine.model.blocks| {
        return Err(InvalidInput);
      }
      if position + |input| > cache.capacity {
        return Err(CapacityExceeded);
      }
      if Rows(setup.engine.model.embeddings, setup.size, rank) == [] {
        return Err(InvalidInput);
      }
      ghost var k := ThenBlocks(setup, rank, step, State().(sequence := communicator.nextSequence + 1));
      var rows := LookUp(setup, rank, input);
      if rows.Err? {
        return Err(rows.error);
      }
      var embedded := Sum(rows.value, k);
      if embedded.Err? {
        return Err(embedded.error);
      }
      var hidden, layer := embedded.value, 0;
      while layer < |setup.engine.model.blocks|
        invariant communicator.endpoint.Fate() == old(communicator.endpoint.Fate())
        invariant layer <= |setup.engine.model.blocks| && Valid()
        invariant communicator.nextSequence == old(communicator.nextSequence) + 1 + 2 * layer
        invariant Script() == AtLayer(setup, rank, step, State(), layer, hidden)
      {
        var attention := RunAttention(step, layer, hidden);
        if attention.Err? {
          return Err(attention.error);
        }
        hidden := AddAll(hidden, attention.value);
        var mlp := RunMlp(step, layer, hidden);
        if mlp.Err? {
          return Err(mlp.error);
        }
        hidden := AddAll(hidden, mlp.value);
        layer := layer + 1;
      }
      LogitsTurn(setup, rank, step, State(), hidden);
      if hidden == [] {
        return Err(InvalidInput);
      }
      result := GatherLogits(step, hidden);
    }

    /** The local logits of the last position, gathered along the vocabulary. */
    method GatherLogits(step: nat, hidden: seq<Vec>) returns (result: Result<Vec, RankError>)
      requires Valid() && step < setup.request.effective && hidden != []
      requires Script() == LogitsCall(setup, rank, step, State(), hidden)
      modifies communicator, communicator.endpoint
      ensures communicator.endpoint.Fate() == old(communicator.endpoint.Fate())
      ensures result.Ok? ==>
                Valid() && communicator.nextSequence == old(communicator.nextSequence) + 1
                && Script() == AtDecision(setup, rank, step, State(), result.value)
      ensures result.Err? ==> (result.error == NoAnswer && communicator.endpoint.Starved()) || Script() == Failed
    {
      hide CallProc, AtDecision, Norm, Linear, Rows;
      var e := setup.engine;
      var last := Norm(e.kern, e.model.finalNorm, hidden[|hidden| - 1]);
      ghost var k := ThenLogits(setup, rank, step, State().(sequence := communicator.nextSequence + 1));
      var output := communicator.Run(AllGatherCall, Linear(Rows(e.model.head, setup.size, rank), last), k);
      if output.Err? {
        return Err(if output.error == TimedOut then NoAnswer else CollectiveFailed);
      }
      if output.value.tensor.None? || |output.value.tensor.value| != |e.model.head| {
        return Err(CollectiveFailed);
      }
      return Ok(output.value.tensor.value);
    }

    /** Rank 0 decides and tells its peers; every other rank takes the decision. */
    method Agree(step: nat, logits: Vec) returns (result: Result<TokenDecision, RankError>)
      requires Valid() && step < setup.request.effective && Script() == AtDecision(setup, rank, step, State(), logits)
      modifies communicator.endpoint
      ensures communicator.endpoint.Fate() == old(communicator.endpoint.Fate())
      ensures result.Ok? ==> Valid() && Script() == Conclude(setup, rank, step, State(), result.value)
      ensures result.Err? ==> (result.error == NoAnswer && communicator.endpoint.Starved()) || Script() == Failed
    {
      hide Conclude;
      if rank != 0 {
        var frame := communicator.endpoint.Receive(0, WantControl(DECISION_BASE + step));
        return if frame.Ok? then Ok(frame.value.control) else Err(NoAnswer);
      }
      var decision := DecisionFor(setup.request, step, setup.engine.pick(logits));
      for peer := 1 to setup.size
        invariant communicator.endpoint.Fate() == old(communicator.endpoint.Fate())
        invariant Valid() && Script() == Announce(setup, step, peer, decision, State())
      {
        communicator.endpoint.Send(peer, Control(DECISION_BASE + step, decision));
      }
      return Ok(decision);
    }

    /** `run_tensor_parallel_rank_observed`, from the first barrier to the report: it ends with the script at
    `Done` of exactly the report it returns, or with a failure that is a time-out or the program's own. */
    method Run() returns (result: Result<TpReport, RankError>)
      requires Valid() && State() == FirstState(setup) && communicator.traces == [] && Script() == TpProgram(setup, rank)
      modifies this, communicator, communicator.endpoint
      ensures communicator.endpoint.Fate() == old(communicator.endpoint.Fate())
      ensures result.Ok? ==> Script() == Done(result.value)
      ensures result.Err? ==> (result.error == NoAnswer && communicator.endpoint.Starved()) || Script() == Failed
    {
      hide TpStep, BarrierProc, AtDecision;
      var started := communicator.endpoint.Barrier(0, TpStep(setup, rank, 0, FirstState(setup)));
      if started.Err? {
        return Err(if started.error == NothingCame then NoAnswer else UnexpectedMessage);
      }
      var perForward := 2 * |setup.engine.model.blocks| + 2;
      var stopReason: Option<StopReason> := None;
      var step := 0;
      while step < setup.request.effective && stopReason.None?
        invariant communicator.endpoint.Fate() == old(communicator.endpoint.Fate())
        invariant step <= setup.request.effective && Valid()
        invariant communicator.nextSequence == step * perForward
        invariant stopReason.None? ==> Script() == TpStep(setup, rank, step, State())
        invariant stopReason.Some? ==>
                    Script() == BarrierProc(setup.size, rank, 1, Done(TpReport(generatedTokens, stopReason.value, cache, communicator.nextSequence)))
        decreases setup.request.effective - step
      {
        MulSucc(step, perForward);
        var logits := Forward(step);
        if logits.Err? {
          return Err(logits.error);
        }
        var agreed := Agree(step, logits.value);
        if agreed.Err? {
          return Err(agreed.error);
        }
        var decision := agreed.value;
        if decision.step != step {
          return Err(StaleDecision);
        }
        if decision.emit {
          generatedTokens := generatedTokens + [decision.token];
        }
        if !decision.continues {
          if decision.reason.None? {
            return Err(NoStopReason);
          }
          stopReason := decision.reason;
        } else {
          position := position + |input|;
          input := [decision.token];
        }
        step := step + 1;
      }
      if stopReason.None? {
        OutOfSteps(setup, rank, step, State());
        return Err(NoStopReason);
      }
      var report := TpReport(generatedTokens, stopReason.value, cache, communicator.nextSequence);
      var finished := communicator.endpoint.Barrier(1, Done(report));
      if finished.Err? {
        return Err(if finished.error == NothingCame then NoAnswer else UnexpectedMessage);
      }
      return Ok(report);
    }
  }

  /** What the rank took and sent in the schedule, and what it returned: its report of single-process generation. */
  lemma FinishedReports(su: TpSetup, cap: Capacity, schedule: seq<Act>, r: nat)
    requires ValidTp(su) && HasFinished(Ranks(su), cap, schedule, r)
    ensures r < su.size
    ensures var g, h := Generate(su.engine, su.request), HistoryOf(cap, Quiet(Ranks(su)), schedule, r);
            && g.Ok? && ValidCache(su.engine.model, g.value.cache)
            && Play(TpProgram(su, r), h.taken) == Played(Done(ReportOf(su, g.value, r)), h.sent)
  {
    hide Generate, TpProgram, ReportOf, HistoryOf, Enabled, Play;
    TensorParallelSettles(su, cap);
    HistoryReplays(cap, Quiet(Ranks(su)), schedule, r);
    var g, h := Generate(su.engine, su.request).value, HistoryOf(cap, Quiet(Ranks(su)), schedule, r);
    assert Network.Run(cap, Quiet(Ranks(su)), schedule).procs[r] == Reports(su, g)[r];
    PlayedOut<seq<real>, TokenDecision, TpReport>(ReportOf(su, g, r));
    assert h.sent + [] == h.sent;
  }

  /** The rank object in any run of the whole world: given the frames that the rank takes in a schedule which
  finishes it, the object returns the report of single-process generation and sends exactly the frames that the
  rank sends there, in the same order. */
  method RunInWorld(su: TpSetup, r: nat, incoming: seq<Frame<seq<real>, TokenDecision>>, ghost cap: Capacity, ghost schedule: seq<Act>)
    returns (report: TpReport, sent: seq<(nat, Frame<seq<real>, TokenDecision>)>)
    requires ValidTp(su) && HasFinished(Ranks(su), cap, schedule, r)
    requires incoming == HistoryOf(cap, Quiet(Ranks(su)), schedule, r).taken
    ensures var g := Generate(su.engine, su.request);
            su.size > 0 && g.Ok? && ValidCache(su.engine.model, g.value.cache) && report == ReportOf(su, g.value, r)
    ensures sent == HistoryOf(cap, Quiet(Ranks(su)), schedule, r).sent
  {
    hide Generate, TpProgram, ReportOf, HistoryOf, HasFinished, ValidTp;
    FinishedReports(su, cap, schedule, r);
    var endpoint := new Endpoint<seq<real>, TokenDecision, TpReport>(su.size, r, incoming, TpProgram(su, r));
    var communicator := new Communicator<real, TokenDecision, TpReport>(RealWorld(su), endpoint);
    var loop := new Rank(su, communicator);
    var result := loop.Run();
    report, sent := result.value, endpoint.outgoing;
  }
}
