/** One pipeline rank as it runs: the loop over steps with its mutable state. */
module PipelineRank {
  import opened Options
  import opened Network
  import opened Tags
  import opened Llama
  import opened Generation
  import opened TcpBarrier
  import opened Pipeline
  import opened PipelineRuns
  import opened Endpoints
  import opened Histories

  datatype RankError = TimedOut | StageFailed | Protocol

  class Rank {
    const setup: Setup
    const rank: nat
    const endpoint: Endpoint<Activation, PipelineControl, RankReport>
    var step: nat
    var previousToken: Option<nat>
    var generatedTokens: seq<nat>
    var cache: Cache

    /** What the rank carries to the next step. */
    function State(): RankState
      reads this
    {
      RankState(previousToken, generatedTokens, cache)
    }

    constructor (setup: Setup, endpoint: Endpoint<Activation, PipelineControl, RankReport>)
      ensures this.setup == setup && this.endpoint == endpoint && rank == endpoint.rank
      ensures step == 0 && State() == FirstState(setup, rank)
    {
      this.setup, this.endpoint, this.rank := setup, endpoint, endpoint.rank;
      step, previousToken, generatedTokens, cache := 0, None, [], FirstState(setup, endpoint.rank).cache;
    }

    /** The activation of this step: from tokens on rank 0, from the previous stage elsewhere. */
    method ComputeStage() returns (result: Result<Activation, RankError>)
      requires endpoint.script == StepProc(setup, rank, step, State())
      modifies this`cache, endpoint
      ensures endpoint.Fate() == old(endpoint.Fate())
      ensures result.Ok? ==> step < STEP_SPAN && endpoint.script == PassOn(setup, rank, step, result.value, State())
      ensures result.Err? ==> (result.error == TimedOut && endpoint.Starved()) || endpoint.script == Failed
    {
      hide PassOn;
      if step >= STEP_SPAN {
        return Err(Protocol);
      }
      var input: Result<(Activation, Cache), ForwardError>;
      if rank == 0 {
        if step > 0 && previousToken.None? {
          return Err(Protocol);
        }
        input := StageTokens(setup, if step == 0 then setup.request.prompt else [previousToken.value], cache);
      } else {
        var frame := endpoint.Receive(rank - 1, WantTensor(ActivationTag(step).value));
        if frame.Err? {
          return Err(TimedOut);
        }
        if !ValidActivation(setup, step, frame.value.tensor) {
          return Err(Protocol);
        }
        input := StageForward(setup, rank, frame.value.tensor, cache);
      }
      if input.Err? {
        return Err(StageFailed);
      }
      cache := input.value.1;
      return Ok(input.value.0);
    }

    /** Hands the activation on, or selects the token and feeds it back to rank 0. */
    method HandOn(hidden: Activation) returns (result: Result<(), RankError>)
      requires step < STEP_SPAN && endpoint.script == PassOn(setup, rank, step, hidden, State())
      modifies endpoint
      ensures endpoint.Fate() == old(endpoint.Fate())
      ensures result.Ok? ==> endpoint.script == Agree(setup, rank, step, State())
      ensures result.Err? ==> endpoint.script == Failed
    {
      hide Agree;
      if rank + 1 < World(setup) {
        endpoint.Send(rank + 1, Tensor(ActivationTag(step).value, hidden));
        return Ok(());
      }
      if hidden == [] {
        return Err(StageFailed);
      }
      var token := setup.engine.pick(Finish(setup.engine.kern, setup.engine.model, hidden));
      endpoint.Send(0, Control(TokenTag(step).value, TokenMessage(step, token)));
      return Ok(());
    }

    /** Rank 0: takes the token, decides, and tells every other rank. */
    method DecideForAll() returns (result: Result<Decision, RankError>)
      requires rank == 0 && step < STEP_SPAN && endpoint.script == Agree(setup, 0, step, State())
      modifies this`previousToken, this`generatedTokens, endpoint
      ensures endpoint.Fate() == old(endpoint.Fate())
      ensures result.Ok? ==> endpoint.script == Conclude(setup, 0, step, result.value, State())
      ensures result.Err? ==> (result.error == TimedOut && endpoint.Starved()) || endpoint.script == Failed
    {
      hide Conclude;
      var frame := endpoint.Receive(LastRank(setup), WantControl(TokenTag(step).value));
      if frame.Err? {
        return Err(TimedOut);
      }
      var control := frame.value.control;
      if !control.TokenMessage? || control.step != step {
        return Err(Protocol);
      }
      var token, decision := control.token, Continue;
      if token == setup.request.eos {
        decision := Stop(Eos);
      } else {
        generatedTokens := generatedTokens + [token];
        previousToken := Some(token);
        if |generatedTokens| >= setup.request.effective {
          decision := Stop(if setup.request.requested > setup.request.effective then ContextLimit else MaxNewTokens);
        }
      }
      var destination := 1;
      while destination < World(setup)
        invariant endpoint.Fate() == old(endpoint.Fate())
        invariant destination >= 1 && endpoint.script == Announce(setup, step, destination, decision, State())
      {
        endpoint.Send(destination, Control(DecisionTag(step).value, DecisionMessage(step, decision)));
        destination := destination + 1;
      }
      return Ok(decision);
    }

    /** Every other rank: waits for the decision. */
    method AwaitDecision() returns (result: Result<Decision, RankError>)
      requires rank > 0 && step < STEP_SPAN && endpoint.script == Agree(setup, rank, step, State())
      modifies endpoint
      ensures endpoint.Fate() == old(endpoint.Fate())
      ensures result.Ok? ==> endpoint.script == Conclude(setup, rank, step, result.value, State())
      ensures result.Err? ==> (result.error == TimedOut && endpoint.Starved()) || endpoint.script == Failed
    {
      hide Conclude;
      var frame := endpoint.Receive(0, WantControl(DecisionTag(step).value));
      if frame.Err? {
        return Err(TimedOut);
      }
      var control := frame.value.control;
      if !control.DecisionMessage? || control.step != step {
        return Err(Protocol);
      }
      return Ok(control.decision);
    }

    /** One turn of the loop. */
    method OneStep() returns (result: Result<Decision, RankError>)
      requires endpoint.script == StepProc(setup, rank, step, State())
      modifies this`cache, this`previousToken, this`generatedTokens, endpoint
      ensures endpoint.Fate() == old(endpoint.Fate())
      ensures result.Ok? ==> step < STEP_SPAN && endpoint.script == Conclude(setup, rank, step, result.value, State())
      ensures result.Err? ==> (result.error == TimedOut && endpoint.Starved()) || endpoint.script == Failed
    {
      hide StepProc, PassOn, Agree, Conclude;
      var hidden := ComputeStage();
      if hidden.Err? {
        return Err(hidden.error);
      }
      var handed := HandOn(hidden.value);
      if handed.Err? {
        return Err(handed.error);
      }
      if rank == 0 {
        result := DecideForAll();
      } else {
        result := AwaitDecision();
      }
    }

    /** `run_pipeline_rank`, from the first barrier to the report: it ends with the script at `Done` of
    exactly the report it returns, or with a failure that is a time-out or the program's own failure. */
    method Run() returns (result: Result<RankReport, RankError>)
      requires rank < World(setup) == endpoint.size && rank == endpoint.rank
      requires step == 0 && State() == FirstState(setup, rank) && endpoint.script == RankProgram(setup, rank)
      modifies this, endpoint
      ensures endpoint.Fate() == old(endpoint.Fate())
      ensures result.Ok? ==> endpoint.script == Done(result.value)
      ensures result.Err? ==> (result.error == TimedOut && endpoint.Starved()) || endpoint.script == Failed
    {
      hide StepProc, BarrierProc;
      var started := endpoint.Barrier(0, StepProc(setup, rank, 0, FirstState(setup, rank)));
      if started.Err? {
        return Err(if started.error == NothingCame then TimedOut else Protocol);
      }
      var decision := Continue;
      while decision == Continue
        invariant endpoint.Fate() == old(endpoint.Fate())
        invariant decision == Continue ==> endpoint.script == StepProc(setup, rank, step, State())
        invariant decision != Continue ==>
                    endpoint.script == BarrierProc(World(setup), rank, 1, Done(RankReport(generatedTokens, decision.reason, cache)))
        decreases STEP_SPAN - step, if decision == Continue then 1 else 0
      {
        var outcome := OneStep();
        if outcome.Err? {
          return Err(outcome.error);
        }
        decision := outcome.value;
        if decision == Continue {
          step := step + 1;
        }
      }
      var report := RankReport(generatedTokens, decision.reason, cache);
      var finished := endpoint.Barrier(1, Done(report));
      if finished.Err? {
        return Err(if finished.error == NothingCame then TimedOut else Protocol);
      }
      return Ok(report);
    }
  }

  /** What the rank took and sent in the schedule, and what it returned: its report of single-process generation. */
  lemma FinishedReports(su: Setup, cap: Capacity, schedule: seq<Act>, r: nat)
    requires ValidSetup(su) && HasFinished(Ranks(su), cap, schedule, r)
    ensures r < World(su)
    ensures var g, h := Generate(su.engine, su.request), HistoryOf(cap, Quiet(Ranks(su)), schedule, r);
            && g.Ok? && ValidCache(su.engine.model, g.value.cache)
            && Play(RankProgram(su, r), h.taken) == Played(Done(ReportOf(su, g.value, r)), h.sent)
  {
    hide Generate, RankProgram, ReportOf, HistoryOf, Enabled, Play;
    PipelineSettles(su, cap);
    HistoryReplays(cap, Quiet(Ranks(su)), schedule, r);
    var g, h := Generate(su.engine, su.request).value, HistoryOf(cap, Quiet(Ranks(su)), schedule, r);
    assert Run(cap, Quiet(Ranks(su)), schedule).procs[r] == Reports(su, g)[r];
    PlayedOut<Activation, PipelineControl, RankReport>(ReportOf(su, g, r));
    assert h.sent + [] == h.sent;
  }

  /** The rank object in any run of the whole pipeline: given the frames that the rank takes in a schedule which
  finishes it, the object returns the report of single-process generation and sends exactly the frames that the
  rank sends there, in the same order. */
  method RunInWorld(su: Setup, r: nat, incoming: seq<Frame<Activation, PipelineControl>>, ghost cap: Capacity, ghost schedule: seq<Act>)
    returns (report: RankReport, sent: seq<(nat, Frame<Activation, PipelineControl>)>)
    requires ValidSetup(su) && HasFinished(Ranks(su), cap, schedule, r)
    requires incoming == HistoryOf(cap, Quiet(Ranks(su)), schedule, r).taken
    ensures var g := Generate(su.engine, su.request);
            g.Ok? && ValidCache(su.engine.model, g.value.cache) && report == ReportOf(su, g.value, r)
    ensures sent == HistoryOf(cap, Quiet(Ranks(su)), schedule, r).sent
  {
    hide Generate, RankProgram, ReportOf, HistoryOf, HasFinished, ValidSetup;
    FinishedReports(su, cap, schedule, r);
    var endpoint := new Endpoint<Activation, PipelineControl, RankReport>(World(su), r, incoming, RankProgram(su, r));
    var loop := new Rank(su, endpoint);
    var result := loop.Run();
    report, sent := result.value, endpoint.outgoing;
  }
}
