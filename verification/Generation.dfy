/** Greedy generation in one process: the reference for the distributed runs. */
module Generation {
  import opened Options
  import opened LinearAlgebra
  import opened Llama
  import opened ChunkedForward

  datatype StopReason = Eos | MaxNewTokens | ContextLimit

  datatype PreflightError = NothingRequested | EmptyPrompt | PromptTooLong

  /** Prompt, token limits and the cache capacity derived from them. */
  datatype Request = Request(prompt: seq<nat>, requested: nat, effective: nat, eos: nat)

  /** What a finished generation reports. */
  datatype Generated = Generated(tokens: seq<nat>, reason: StopReason, cache: Cache)

  /** A model with its kernels, head counts and the argmax that selects tokens. */
  datatype Engine = Engine(kern: Kernels, shape: Shape, model: Model, pick: Vec -> nat)

  function CacheCapacity(q: Request): nat { |q.prompt| + q.effective }

  /** The checks before a generation, and the token limit that fits the context. */
  function Preflight(maxPositions: nat, prompt: seq<nat>, requested: nat, eos: nat): Result<Request, PreflightError> {
    if requested == 0 then Err(NothingRequested)
    else if prompt == [] then Err(EmptyPrompt)
    else if |prompt| >= maxPositions then Err(PromptTooLong)
    else Ok(Request(prompt, requested, Min(requested, maxPositions - |prompt|), eos))
  }

  function LimitReason(q: Request): StopReason {
    if q.requested > q.effective then ContextLimit else MaxNewTokens
  }

  function EmptyCache(m: Model, capacity: nat): (c: Cache)
    ensures ValidCache(m, c) && Length(c) == 0 && c.capacity == capacity
  {
    Cache(seq(|m.blocks|, _ => LayerCache([], [])), capacity)
  }

  /** Argmax picks an index of the logits, and there is one logit for every embedding row. */
  ghost predicate ValidEngine(e: Engine) {
    && e.model.blocks != []
    && |e.model.head| == |e.model.embeddings| > 0
    && forall v: Vec :: v != [] ==> e.pick(v) < |v|
  }

  /** A request that passed the preflight, with a prompt from the vocabulary. */
  ghost predicate ValidRequest(e: Engine, q: Request) {
    q.prompt != [] && Known(e.model, q.prompt) && 1 <= q.effective <= q.requested
  }

  /** A request is refused exactly when nothing is asked for or the prompt leaves no room; an accepted one
  can always generate, fills the context at most, and reports the context limit exactly when the context
  cut it short. */
  lemma PreflightIsExact(e: Engine, maxPositions: nat, prompt: seq<nat>, requested: nat, eos: nat)
    requires Known(e.model, prompt)
    ensures var p := Preflight(maxPositions, prompt, requested, eos);
            && (p.Ok? <==> requested >= 1 && 1 <= |prompt| < maxPositions)
            && (p.Ok? ==>
                  && ValidRequest(e, p.value) && 1 <= CacheCapacity(p.value) <= maxPositions
                  && (LimitReason(p.value) == ContextLimit <==> |prompt| + requested > maxPositions)
                  && (CacheCapacity(p.value) == maxPositions || p.value.effective == requested))
  {}

  /** The generation loop with a cache: forward the new tokens, pick one, stop at the end-of-sequence
  token or the limit, otherwise feed the picked token back. */
  function Greedy(e: Engine, q: Request, input: seq<nat>, c: Cache, tokens: seq<nat>): Result<Generated, ForwardError>
    requires ValidCache(e.model, c)
    decreases q.effective - |tokens|
  {
    var one := Forward(e.kern, e.shape, e.model, input, Length(c), c);
    if one.Err? then Err(one.error)
    else
      ForwardKeepsCache(e.kern, e.shape, e.model, input, c);
      var token, c' := e.pick(one.value.0), one.value.1;
      if token == q.eos then Ok(Generated(tokens, Eos, c'))
      else if |tokens| + 1 >= q.effective then Ok(Generated(tokens + [token], LimitReason(q), c'))
      else Greedy(e, q, [token], c', tokens + [token])
  }

  /** The tokens the next forward consumes. */
  function InputOf(q: Request, tokens: seq<nat>): seq<nat> {
    if tokens == [] then q.prompt else [tokens[|tokens| - 1]]
  }

  function Generate(e: Engine, q: Request): Result<Generated, ForwardError> {
    Greedy(e, q, q.prompt, EmptyCache(e.model, CacheCapacity(q)), [])
  }

  /** The same loop without a cache: every step runs the whole text so far from the start. */
  function Recompute(e: Engine, q: Request, tokens: seq<nat>): Result<(seq<nat>, StopReason), ForwardError>
    decreases q.effective - |tokens|
  {
    var one := Forward(e.kern, e.shape, e.model, q.prompt + tokens, 0, EmptyCache(e.model, CacheCapacity(q)));
    if one.Err? then Err(one.error)
    else
      var token := e.pick(one.value.0);
      if token == q.eos then Ok((tokens, Eos))
      else if |tokens| + 1 >= q.effective then Ok((tokens + [token], LimitReason(q)))
      else Recompute(e, q, tokens + [token])
  }

  /** Forwards of a finished generation: one per token, and one more that gave the end of the sequence. */
  function Forwards(g: Generated): nat {
    |g.tokens| + if g.reason == Eos then 1 else 0
  }

  /** The picked token is in the vocabulary. */
  lemma PickIsKnown(e: Engine, input: seq<nat>, c: Cache)
    requires ValidEngine(e) && ValidCache(e.model, c)
    ensures var one := Forward(e.kern, e.shape, e.model, input, Length(c), c);
            one.Ok? ==> |one.value.0| == |e.model.head| && e.pick(one.value.0) < |e.model.embeddings|
  {
    hide RunBlocks, BlockCaches;
  }

  /** The only ways a forward at the cache's own position can fail. */
  lemma ForwardSucceeds(e: Engine, input: seq<nat>, c: Cache)
    requires ValidCache(e.model, c)
    ensures Forward(e.kern, e.shape, e.model, input, Length(c), c).Ok? <==>
            input != [] && Length(c) + |input| <= c.capacity && Known(e.model, input)
  {
    hide RunBlocks, BlockCaches, Finish;
  }

  /** One turn of the loop, and what the next turn starts from. */
  lemma GreedyUnfolds(e: Engine, q: Request, input: seq<nat>, c: Cache, tokens: seq<nat>)
    requires ValidEngine(e) && ValidCache(e.model, c)
    requires Forward(e.kern, e.shape, e.model, input, Length(c), c).Ok?
    ensures var one := Forward(e.kern, e.shape, e.model, input, Length(c), c);
            var token, c' := e.pick(one.value.0), one.value.1;
            && ValidCache(e.model, c') && c'.capacity == c.capacity && Length(c') == Length(c) + |input|
            && token < |e.model.embeddings|
            && Greedy(e, q, input, c, tokens) ==
               (if token == q.eos then Ok(Generated(tokens, Eos, c'))
                else if |tokens| + 1 >= q.effective then Ok(Generated(tokens + [token], LimitReason(q), c'))
                else Greedy(e, q, [token], c', tokens + [token]))
  {
    ForwardKeepsCache(e.kern, e.shape, e.model, input, c);
    PickIsKnown(e, input, c);
    hide Forward;
  }

  /** No generation runs out of cache or meets an unknown token, and when it stops every position but
  that of the last emitted token is cached, none of the emitted tokens is the end-of-sequence token,
  and the reason tells which limit was hit. */
  lemma {:induction false} GreedySucceeds(e: Engine, q: Request, input: seq<nat>, c: Cache, tokens: seq<nat>)
    requires ValidEngine(e) && ValidCache(e.model, c) && c.capacity == CacheCapacity(q) && |tokens| < q.effective
    requires input != [] && Known(e.model, input) && Length(c) + |input| == |q.prompt| + |tokens|
    requires q.eos !in tokens
    ensures var g := Greedy(e, q, input, c, tokens);
            && g.Ok? && ValidCache(e.model, g.value.cache) && tokens <= g.value.tokens && |g.value.tokens| <= q.effective
            && q.eos !in g.value.tokens
            && (g.value.reason == Eos ==> Length(g.value.cache) == |q.prompt| + |g.value.tokens|)
            && (g.value.reason != Eos ==> |g.value.tokens| == q.effective && g.value.reason == LimitReason(q)
                                          && Length(g.value.cache) + 1 == |q.prompt| + |g.value.tokens|)
    decreases q.effective - |tokens|
  {
    ForwardKeepsCache(e.kern, e.shape, e.model, input, c);
    PickIsKnown(e, input, c);
    hide RunBlocks, BlockCaches, Finish;
    var one := Forward(e.kern, e.shape, e.model, input, Length(c), c);
    var token := e.pick(one.value.0);
    if token != q.eos && |tokens| + 1 < q.effective {
      GreedySucceeds(e, q, [token], one.value.1, tokens + [token]);
    }
  }

  /** Cached decoding emits the tokens that recomputing the whole text at every step would emit. */
  lemma {:induction false} CachedIsRecomputed(e: Engine, q: Request, input: seq<nat>, c: Cache, tokens: seq<nat>)
    requires ValidEngine(e) && ValidRequest(e, q) && ValidCache(e.model, c) && c.capacity == CacheCapacity(q) && |tokens| < q.effective
    requires input != [] && Length(c) + |input| == |q.prompt| + |tokens| && Known(e.model, q.prompt + tokens)
    requires Forward(e.kern, e.shape, e.model, input, Length(c), c)
             == Forward(e.kern, e.shape, e.model, q.prompt + tokens, 0, EmptyCache(e.model, CacheCapacity(q)))
    ensures var g := Greedy(e, q, input, c, tokens);
            && g.Ok? && Recompute(e, q, tokens) == Ok((g.value.tokens, g.value.reason))
    decreases q.effective - |tokens|
  {
    hide Forward, Greedy, ValidCache, Known, EmptyCache;
    var empty, text := EmptyCache(e.model, CacheCapacity(q)), q.prompt + tokens;
    ForwardSucceeds(e, text, empty);
    GreedyUnfolds(e, q, input, c, tokens);
    var one := Forward(e.kern, e.shape, e.model, input, Length(c), c);
    var token := e.pick(one.value.0);
    if token != q.eos && |tokens| + 1 < q.effective {
      assert text + [token] == q.prompt + (tokens + [token]);
      KnownMore(e.model, text, token);
      ForwardSucceeds(e, text + [token], empty);
      ForwardSplits(e.kern, e.shape, e.model, text, [token], empty);
      CachedIsRecomputed(e, q, [token], one.value.1, tokens + [token]);
    }
  }

  lemma KnownMore(m: Model, text: seq<nat>, token: nat)
    requires Known(m, text) && token < |m.embeddings|
    ensures Known(m, text + [token]) && Known(m, [token])
  {}

  /** Generation succeeds on every valid request and equals generation without a cache. */
  lemma GenerateIsRecompute(e: Engine, q: Request)
    requires ValidEngine(e) && ValidRequest(e, q)
    ensures var g := Generate(e, q);
            && g.Ok? && Recompute(e, q, []) == Ok((g.value.tokens, g.value.reason))
            && |g.value.tokens| <= q.effective && q.eos !in g.value.tokens
            && (g.value.reason == Eos ==> Length(g.value.cache) == |q.prompt| + |g.value.tokens|)
            && (g.value.reason != Eos ==> |g.value.tokens| == q.effective && g.value.reason == LimitReason(q)
                                          && Length(g.value.cache) + 1 == |q.prompt| + |g.value.tokens|)
  {
    assert q.prompt + [] == q.prompt;
    GreedySucceeds(e, q, q.prompt, EmptyCache(e.model, CacheCapacity(q)), []);
    CachedIsRecomputed(e, q, q.prompt, EmptyCache(e.model, CacheCapacity(q)), []);
  }
}
