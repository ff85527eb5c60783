/** What a collective call returns on every rank, and programs that make many calls. */
module CollectiveSpecs {
  import opened Options
  import opened Arithmetic
  import opened Sequences
  import opened Network
  import opened Tags
  import opened Collectives
  import opened CollectiveRuns
  import opened RingRuns
  import opened PairwiseRuns

  ghost predicate SameLength<E>(xs: seq<seq<E>>) {
    forall q, r :: 0 <= q < |xs| && 0 <= r < |xs| ==> |xs[q]| == |xs[r]|
  }

  ghost predicate AllDivide<E>(w: World<E>, xs: seq<seq<E>>) {
    |xs| == w.size > 0 && forall r :: 0 <= r < w.size ==> |xs[r]| % w.size == 0
  }

  /** Every rank's tensor cut into one shard per rank. */
  ghost function Cut<E>(w: World<E>, xs: seq<seq<E>>): (cs: seq<seq<seq<E>>>)
    requires AllDivide(w, xs)
    ensures Shards(w, cs) && forall r :: 0 <= r < w.size ==> cs[r] == Chunks(w, xs[r])
  {
    seq(w.size, r requires 0 <= r < w.size => Chunks(w, xs[r]))
  }

  /** Every rank makes the same call with tensors that fit together. */
  ghost predicate Matched<E>(w: World<E>, call: Call, sequence: nat, xs: seq<seq<E>>) {
    && |xs| == w.size > 0 && sequence < MAX_SEQUENCES
    && match call
       case BroadcastCall(root) => root < w.size
       case ReduceCall(root) => root < w.size && SameLength(xs)
       case AllGatherCall => forall q :: 0 < q < w.size ==> w.fits(xs[0], xs[q])
       case CentralizedAllReduceCall => SameLength(xs)
       case RingAllReduceCall => SameLength(xs) && |xs[0]| % w.size == 0
       case ReduceScatterCall => SameLength(xs) && |xs[0]| % w.size == 0
       case AllToAllCall => AllDivide(w, xs) && ShardsFit(w, Cut(w, xs))
  }

  /** Every step of the ring and every round of the pairwise exchange has a tag. */
  predicate WithinTags<E>(w: World<E>, call: Call) {
    call.RingAllReduceCall? || call.AllToAllCall? ==> w.size <= MAX_EXCHANGE_WORLD
  }

  /** The calls that succeed (`CallReturnsExactly`). */
  ghost predicate Valid<E>(w: World<E>, call: Call, sequence: nat, xs: seq<seq<E>>) {
    Matched(w, call, sequence, xs) && WithinTags(w, call)
  }

  /** `xs[root] + xs[0] + xs[1] + ..`, added from the left, with the root's own tensor first. */
  ghost function SumOnto<E>(w: World<E>, source: nat, root: nat, acc: seq<E>, xs: seq<seq<E>>): (sum: seq<E>)
    requires |xs| == w.size && forall q :: 0 <= q < w.size ==> |xs[q]| == |acc|
    ensures |sum| == |acc|
    decreases w.size - source
  {
    if source >= w.size then acc
    else if source == root then SumOnto(w, source + 1, root, acc, xs)
    else SumOnto(w, source + 1, root, Zip(w.plus, acc, xs[source]), xs)
  }

  ghost function Sum<E>(w: World<E>, root: nat, xs: seq<seq<E>>): (sum: seq<E>)
    requires |xs| == w.size && root < w.size && SameLength(xs)
    ensures |sum| == |xs[root]|
  {
    SumOnto(w, 0, root, xs[root], xs)
  }

  ghost function Grids<E>(w: World<E>, xs: seq<seq<E>>): (cs: seq<seq<seq<E>>>)
    requires |xs| == w.size > 0 && SameLength(xs) && |xs[0]| % w.size == 0
    ensures Grid(w, cs, |xs[0]| / w.size)
    ensures forall r :: 0 <= r < w.size ==> |xs[r]| % w.size == 0 && cs[r] == Chunks(w, xs[r])
  {
    assert forall r :: 0 <= r < w.size ==> |xs[r]| == |xs[0]|;
    Cut(w, xs)
  }

  /** The sum of the ring: every chunk in the order in which it travels. */
  ghost function RingSum<E>(w: World<E>, xs: seq<seq<E>>): seq<E>
    requires |xs| == w.size > 0 && SameLength(xs) && |xs[0]| % w.size == 0
  {
    Join(CompleteChunks(w, Grids(w, xs), |xs[0]| / w.size))
  }

  /** What rank `r` gets back from `call` when rank `q` brings `xs[q]`. */
  ghost function Spec<E>(w: World<E>, call: Call, sequence: nat, xs: seq<seq<E>>, r: nat): Output<E>
    requires Valid(w, call, sequence, xs) && r < w.size
  {
    match call
    case BroadcastCall(root) =>
      if r == root then Output(Some(xs[root]), BytesOf(w, 0, root, ShareOf(Whole(), xs[root])), 0)
      else Output(Some(xs[root]), 0, Bytes(w, xs[root]))
    case ReduceCall(root) =>
      if r == root then Output(Some(Sum(w, root, xs)), 0, BytesOf(w, 0, root, Nth(xs)))
      else Output(None, Bytes(w, xs[r]), 0)
    case AllGatherCall => GatherScatterSpec(w, xs, Join(xs), Whole(), r)
    case CentralizedAllReduceCall => GatherScatterSpec(w, xs, Sum(w, 0, xs), Whole(), r)
    case RingAllReduceCall =>
      if w.size == 1 then Output(Some(xs[0]), 0, 0)
      else
        var moved := 2 * StepBytes(w.bytes(|xs[0]| / w.size), w.size - 1);
        Output(Some(RingSum(w, xs)), moved, moved)
    case ReduceScatterCall => GatherScatterSpec(w, xs, Sum(w, 0, xs), ShardFor(w), r)
    case AllToAllCall =>
      var cs := Cut(w, xs);
      Output(Some(Transposed(w, cs, r)), SentBefore(w, cs, r, w.size), ReceivedBefore(w, cs, r, w.size))
  }

  /** Rank 0 holds `total`, keeps its own pick of it and hands the other ranks theirs. */
  ghost function GatherScatterSpec<E>(w: World<E>, xs: seq<seq<E>>, total: seq<E>, pick: (seq<E>, nat) -> seq<E>, r: nat): Output<E>
    requires |xs| == w.size && r < w.size
  {
    if r == 0 then Output(Some(pick(total, 0)), BytesOf(w, 0, 0, ShareOf(pick, total)), BytesOf(w, 0, 0, Nth(xs)))
    else Output(Some(pick(total, r)), Bytes(w, xs[r]), Bytes(w, pick(total, r)))
  }

  // ---- what the root accumulates ----

  lemma {:induction false} GatheredIsSum<E>(w: World<E>, source: nat, root: nat, acc: seq<E>, xs: seq<seq<E>>)
    requires |xs| == w.size && forall q :: 0 <= q < w.size ==> |xs[q]| == |acc|
    ensures Gathered(w, source, root, acc, xs, Adding(w)) == Some(SumOnto(w, source, root, acc, xs))
    decreases w.size - source
  {
    if source < w.size {
      GatheredIsSum(w, source + 1, root, if source == root then acc else Zip(w.plus, acc, xs[source]), xs);
    }
  }

  lemma {:induction false} GatheredIsConcat<E>(w: World<E>, source: nat, acc: seq<E>, xs: seq<seq<E>>)
    requires |xs| == w.size && 0 < source <= w.size && forall q :: 0 < q < w.size ==> w.fits(xs[0], xs[q])
    ensures Gathered(w, source, 0, acc, xs, Pushing(w, xs[0])) == Some(acc + Join(xs[source..]))
    decreases w.size - source
  {
    if source < w.size {
      GatheredIsConcat(w, source + 1, acc + xs[source], xs);
      assert xs[source..][1..] == xs[source + 1..];
      assert acc + xs[source] + Join(xs[source + 1..]) == acc + Join(xs[source..]);
    } else {
      assert acc + Join(xs[source..]) == acc;
    }
  }

  // ---- one call ----

  /** All ranks are at the call; `ks[r]` is the rest of rank `r`'s program. */
  ghost predicate Calling<E, C, R>(w: World<E>, call: Call, sequence: nat, xs: seq<seq<E>>, procs: seq<Proc<seq<E>, C, R>>,
                                   ks: seq<Output<E> -> Proc<seq<E>, C, R>>)
  {
    && |procs| == |xs| == |ks| == w.size
    && forall r :: 0 <= r < w.size ==> procs[r] == CallProc(w, call, r, sequence, xs[r], ks[r])
  }

  /** All ranks have returned from the call. */
  ghost predicate Returned<E, C, R>(w: World<E>, call: Call, sequence: nat, xs: seq<seq<E>>, end: seq<Proc<seq<E>, C, R>>,
                                    ks: seq<Output<E> -> Proc<seq<E>, C, R>>)
    requires Valid(w, call, sequence, xs)
  {
    && |end| == |ks| == w.size
    && forall r :: 0 <= r < w.size ==> end[r] == ks[r](Spec(w, call, sequence, xs, r))
  }

  /** The frames of one call: one per peer and direction through a root, one per rank and round otherwise.
  A ring or an exchange that outgrows the tag stops after 256 rounds. */
  function CallFrames(size: nat, call: Call): nat {
    var peers := if size == 0 then 0 else size - 1;
    match call
    case BroadcastCall(_) => peers
    case ReduceCall(_) => peers
    case RingAllReduceCall => if size <= MAX_EXCHANGE_WORLD then 2 * RoundFrames(size, peers) else RoundFrames(size, 256)
    case AllToAllCall => RoundFrames(size, if size <= MAX_EXCHANGE_WORLD then peers else 256)
    case _ => 2 * peers
  }

  lemma {:induction false} RoundFramesIs(size: nat, rounds: nat)
    ensures RoundFrames(size, rounds) == rounds * size
  {
    if rounds > 0 {
      RoundFramesIs(size, rounds - 1);
      MulSucc(rounds - 1, size);
    }
  }

  /** On a ring every rank sends in every step, so an all-reduce takes as many times more frames than through
  the root as there are ranks. */
  lemma CallFramesIs(size: nat, call: Call)
    requires 0 < size && (call.RingAllReduceCall? || call.AllToAllCall? ==> size <= MAX_EXCHANGE_WORLD)
    ensures CallFrames(size, call)
            == match call
               case BroadcastCall(_) => size - 1
               case ReduceCall(_) => size - 1
               case RingAllReduceCall => 2 * (size - 1) * size
               case AllToAllCall => (size - 1) * size
               case _ => 2 * (size - 1)
  {
    RoundFramesIs(size, size - 1);
    MulAssoc(2, size - 1, size);
  }

  lemma TagsFit(sequence: nat, kind: CollectiveKind)
    requires sequence < MAX_SEQUENCES
    ensures CollectiveTag(sequence, kind, 0, 0).Some? && CollectiveTag(sequence, kind, 1, 0).Some? && CollectiveTag(sequence, kind, 2, 0).Some?
  {
    CollectiveTagExact(sequence, kind, 0, 0);
    CollectiveTagExact(sequence, kind, 1, 0);
    CollectiveTagExact(sequence, kind, 2, 0);
  }

  lemma BroadcastCompletes<E, C, R>(w: World<E>, call: Call, sequence: nat, xs: seq<seq<E>>, procs: seq<Proc<seq<E>, C, R>>,
                                    ks: seq<Output<E> -> Proc<seq<E>, C, R>>) returns (end: seq<Proc<seq<E>, C, R>>)
    requires call.BroadcastCall? && Valid(w, call, sequence, xs) && Calling(w, call, sequence, xs, procs, ks)
    ensures ReachesWith(procs, end, CallFrames(w.size, call)) && Returned(w, call, sequence, xs, end, ks)
  {
    hide ReachesWith, CollectiveTag;
    TagsFit(sequence, KindOf(call));
    var root, tag := call.root, CollectiveTag(sequence, Broadcast, 0, 0).value;
    PeersAre(w.size, 0, root);
    end := ScatterRuns(w, procs, 0, root, tag, ShareOf(Whole(), xs[root]), 0, ThenFinish(Some(xs[root]), 0, ks[root]));
  }

  lemma ReduceCompletes<E, C, R>(w: World<E>, call: Call, sequence: nat, xs: seq<seq<E>>, procs: seq<Proc<seq<E>, C, R>>,
                                 ks: seq<Output<E> -> Proc<seq<E>, C, R>>) returns (end: seq<Proc<seq<E>, C, R>>)
    requires call.ReduceCall? && Valid(w, call, sequence, xs) && Calling(w, call, sequence, xs, procs, ks)
    ensures ReachesWith(procs, end, CallFrames(w.size, call)) && Returned(w, call, sequence, xs, end, ks)
  {
    hide ReachesWith, CollectiveTag;
    TagsFit(sequence, KindOf(call));
    var root, tag := call.root, CollectiveTag(sequence, Reduce, 0, 0).value;
    GatheredIsSum(w, 0, root, xs[root], xs);
    PeersAre(w.size, 0, root);
    end := GatherRuns(w, procs, 0, root, tag, xs[root], 0, Adding(w), ThenKeep(ks[root]), xs);
  }

  lemma AllGatherCompletes<E, C, R>(w: World<E>, call: Call, sequence: nat, xs: seq<seq<E>>, procs: seq<Proc<seq<E>, C, R>>,
                                    ks: seq<Output<E> -> Proc<seq<E>, C, R>>) returns (end: seq<Proc<seq<E>, C, R>>)
    requires call.AllGatherCall? && Valid(w, call, sequence, xs) && Calling(w, call, sequence, xs, procs, ks)
    ensures ReachesWith(procs, end, CallFrames(w.size, call)) && Returned(w, call, sequence, xs, end, ks)
  {
    hide ReachesWith, CollectiveTag, GatherLoop;
    TagsFit(sequence, KindOf(call));
    GatheredIsConcat(w, 1, xs[0], xs);
    end := GatherScatterRuns(w, procs, CollectiveTag(sequence, AllGather, 1, 0).value, CollectiveTag(sequence, AllGather, 2, 0).value,
                             xs, Pushing(w, xs[0]), Whole(), seq(w.size, _ => AnyShape()), ks);
  }

  lemma SumCompletes<E, C, R>(w: World<E>, call: Call, sequence: nat, xs: seq<seq<E>>, procs: seq<Proc<seq<E>, C, R>>,
                              ks: seq<Output<E> -> Proc<seq<E>, C, R>>) returns (end: seq<Proc<seq<E>, C, R>>)
    requires call.CentralizedAllReduceCall? || call.ReduceScatterCall?
    requires Valid(w, call, sequence, xs) && Calling(w, call, sequence, xs, procs, ks)
    ensures ReachesWith(procs, end, CallFrames(w.size, call)) && Returned(w, call, sequence, xs, end, ks)
  {
    hide ReachesWith, CollectiveTag, GatherScatter;
    var kind := KindOf(call);
    TagsFit(sequence, kind);
    GatheredIsSum(w, 0, 0, xs[0], xs);
    var t1, t2 := CollectiveTag(sequence, kind, 1, 0).value, CollectiveTag(sequence, kind, 2, 0).value;
    if call.CentralizedAllReduceCall? {
      end := GatherScatterRuns(w, procs, t1, t2, xs, Adding(w), Whole(),
                               seq(w.size, r requires 0 <= r < w.size => SameShape(xs[r])), ks);
    } else {
      end := GatherScatterRuns(w, procs, t1, t2, xs, Adding(w), ShardFor(w), seq(w.size, _ => AnyShape()), ks);
    }
  }

  lemma RingCompletes<E, C, R>(w: World<E>, call: Call, sequence: nat, xs: seq<seq<E>>, procs: seq<Proc<seq<E>, C, R>>,
                               ks: seq<Output<E> -> Proc<seq<E>, C, R>>) returns (end: seq<Proc<seq<E>, C, R>>)
    requires call.RingAllReduceCall? && Valid(w, call, sequence, xs) && Calling(w, call, sequence, xs, procs, ks)
    ensures ReachesWith(procs, end, CallFrames(w.size, call)) && Returned(w, call, sequence, xs, end, ks)
  {
    hide ReachesWith, CollectiveTag, RingReduce, CompleteChunks;
    TagsFit(sequence, KindOf(call));
    if w.size == 1 {
      end := procs;
      WithNone(procs);
    } else {
      end := RingRunsAll(w, procs, sequence, Grids(w, xs), |xs[0]| / w.size, ThenConcats(ks));
    }
  }

  ghost function ThenConcats<E, C, R>(ks: seq<Output<E> -> Proc<seq<E>, C, R>>): (ts: seq<(seq<seq<E>>, nat, nat) -> Proc<seq<E>, C, R>>)
    ensures |ts| == |ks| && forall r :: 0 <= r < |ks| ==> ts[r] == ThenConcat(ks[r])
  {
    if ks == [] then [] else [ThenConcat(ks[0])] + ThenConcats(ks[1..])
  }

  lemma AllToAllCompletes<E, C, R>(w: World<E>, call: Call, sequence: nat, xs: seq<seq<E>>, procs: seq<Proc<seq<E>, C, R>>,
                                   ks: seq<Output<E> -> Proc<seq<E>, C, R>>) returns (end: seq<Proc<seq<E>, C, R>>)
    requires call.AllToAllCall? && Valid(w, call, sequence, xs) && Calling(w, call, sequence, xs, procs, ks)
    ensures ReachesWith(procs, end, CallFrames(w.size, call)) && Returned(w, call, sequence, xs, end, ks)
  {
    hide ReachesWith, CollectiveTag, PairwiseLoop, Transposed, OwnShard, ShardsFit, SentBefore, ReceivedBefore;
    TagsFit(sequence, KindOf(call));
    end := PairwiseRunsAll(w, procs, sequence, Cut(w, xs), ks);
  }

  /** Every collective takes all ranks from the call to their continuations on the specified outputs. */
  lemma CallCompletes<E, C, R>(w: World<E>, call: Call, sequence: nat, xs: seq<seq<E>>, procs: seq<Proc<seq<E>, C, R>>,
                               ks: seq<Output<E> -> Proc<seq<E>, C, R>>) returns (end: seq<Proc<seq<E>, C, R>>)
    requires Valid(w, call, sequence, xs) && Calling(w, call, sequence, xs, procs, ks)
    ensures ReachesWith(procs, end, CallFrames(w.size, call)) && Returned(w, call, sequence, xs, end, ks)
  {
    hide Valid, Calling, Returned, ReachesWith;
    match call
    case BroadcastCall(_) => end := BroadcastCompletes(w, call, sequence, xs, procs, ks);
    case ReduceCall(_) => end := ReduceCompletes(w, call, sequence, xs, procs, ks);
    case AllGatherCall => end := AllGatherCompletes(w, call, sequence, xs, procs, ks);
    case CentralizedAllReduceCall => end := SumCompletes(w, call, sequence, xs, procs, ks);
    case RingAllReduceCall => end := RingCompletes(w, call, sequence, xs, procs, ks);
    case ReduceScatterCall => end := SumCompletes(w, call, sequence, xs, procs, ks);
    case AllToAllCall => end := AllToAllCompletes(w, call, sequence, xs, procs, ks);
  }

  // ---- exactly when a call succeeds ----

  /** Matching calls outside the tag limit take every rank to failure. */
  lemma CallFails<E, C, R>(w: World<E>, call: Call, sequence: nat, xs: seq<seq<E>>, procs: seq<Proc<seq<E>, C, R>>,
                           ks: seq<Output<E> -> Proc<seq<E>, C, R>>) returns (end: seq<Proc<seq<E>, C, R>>)
    requires Matched(w, call, sequence, xs) && Calling(w, call, sequence, xs, procs, ks) && !WithinTags(w, call)
    ensures ReachesWith(procs, end, CallFrames(w.size, call)) && |end| == w.size && forall r :: 0 <= r < w.size ==> end[r] == Failed
  {
    hide ReachesWith, CollectiveTag, RingReduce, PairwiseLoop, OwnShard, ShardsFit;
    TagsFit(sequence, KindOf(call));
    if call.RingAllReduceCall? {
      end := RingTooLarge(w, procs, sequence, Grids(w, xs), |xs[0]| / w.size, ThenConcats(ks));
    } else {
      end := PairwiseTooLarge(w, procs, sequence, Cut(w, xs), ks);
    }
  }

  function Return<E, C>(): Output<E> -> Proc<seq<E>, C, Output<E>> { (o: Output<E>) => Done(o) }

  /** Every rank makes one call and returns its output. */
  ghost function OneCall<E, C>(w: World<E>, call: Call, sequence: nat, xs: seq<seq<E>>): (procs: seq<Proc<seq<E>, C, Output<E>>>)
    requires |xs| == w.size
    ensures |procs| == w.size
  {
    seq(w.size, r requires 0 <= r < w.size => CallProc(w, call, r, sequence, xs[r], Return()))
  }

  /** What the ranks of one call end with, under every schedule: their outputs, or failure on every rank. */
  ghost function Outcome<E, C>(w: World<E>, call: Call, sequence: nat, xs: seq<seq<E>>): (procs: seq<Proc<seq<E>, C, Output<E>>>)
    requires Matched(w, call, sequence, xs)
    ensures |procs| == w.size && AllFinished(procs)
  {
    seq(w.size, r requires 0 <= r < w.size => if WithinTags(w, call) then Done(Spec(w, call, sequence, xs, r)) else Failed)
  }

  lemma CallSettles<E, C>(w: World<E>, call: Call, sequence: nat, xs: seq<seq<E>>, cap: Capacity)
    requires Matched(w, call, sequence, xs)
    ensures ReachesWith(OneCall<E, C>(w, call, sequence, xs), Outcome<E, C>(w, call, sequence, xs), CallFrames(w.size, call))
    ensures Settles(cap, OneCall<E, C>(w, call, sequence, xs), Outcome<E, C>(w, call, sequence, xs), StepsFor(cap, CallFrames(w.size, call)))
  {
    hide ReachesWith, Settles, CallProc, Spec;
    var procs, end, ks := OneCall<E, C>(w, call, sequence, xs), Outcome<E, C>(w, call, sequence, xs), Returns<E, C>(w.size);
    assert Calling(w, call, sequence, xs, procs, ks);
    if WithinTags(w, call) {
      var reached := CallCompletes(w, call, sequence, xs, procs, ks);
      assert reached == end;
    } else {
      var reached := CallFails(w, call, sequence, xs, procs, ks);
      assert reached == end;
    }
    EverySchedule(cap, procs, end, CallFrames(w.size, call));
  }

  ghost function Returns<E, C>(size: nat): (ks: seq<Output<E> -> Proc<seq<E>, C, Output<E>>>)
    ensures |ks| == size && forall r :: 0 <= r < size ==> ks[r] == Return<E, C>()
  {
    if size == 0 then [] else [Return<E, C>()] + Returns<E, C>(size - 1)
  }

  /** Matching calls return on every rank if and only if every step has a tag: always, for the ring and
  all-to-all up to 257 ranks. */
  lemma CallReturnsExactly<E, C>(w: World<E>, call: Call, sequence: nat, xs: seq<seq<E>>)
    requires Matched(w, call, sequence, xs)
    ensures (exists end: seq<Proc<seq<E>, C, Output<E>>> :: Reaches(OneCall<E, C>(w, call, sequence, xs), end) && AllDone(end)) <==> WithinTags(w, call)
  {
    hide Reaches, ReachesWith, Settles, OneCall, Spec;
    var procs, outcome := OneCall<E, C>(w, call, sequence, xs), Outcome<E, C>(w, call, sequence, xs);
    CallSettles<E, C>(w, call, sequence, xs, Unbounded);
    WithReaches(procs, outcome, CallFrames(w.size, call));
    if WithinTags(w, call) {
      assert AllDone(outcome);
    } else {
      assert outcome[0].Failed?;
      forall end: seq<Proc<seq<E>, C, Output<E>>> | Reaches(procs, end) && AllFinished(end) ensures !AllDone(end) {
        UniqueEnd(procs, end, outcome);
      }
      assert forall end: seq<Proc<seq<E>, C, Output<E>>> :: AllDone(end) ==> AllFinished(end);
    }
  }

  ghost predicate AllDone<E, C>(procs: seq<Proc<seq<E>, C, Output<E>>>) {
    forall r :: 0 <= r < |procs| ==> procs[r].Done?
  }

  // ---- programs of many calls ----

  /** A rank program: the calls every rank makes, in order, and what rank `r` brings to the next call
  once it has the outputs of the earlier ones. */
  datatype Program<!E> = Program(calls: seq<Call>, input: (nat, seq<Output<E>>) -> seq<E>)

  function ProgramProc<E, C>(w: World<E>, m: Program<E>, rank: nat, outs: seq<Output<E>>): Proc<seq<E>, C, seq<Output<E>>>
    requires rank < w.size
    decreases |m.calls| - |outs|
  {
    if |outs| >= |m.calls| then Done(outs)
    else CallProc(w, m.calls[|outs|], rank, |outs|, m.input(rank, outs), Continue(w, m, rank, outs))
  }

  function Continue<E, C>(w: World<E>, m: Program<E>, rank: nat, outs: seq<Output<E>>): Output<E> -> Proc<seq<E>, C, seq<Output<E>>>
    requires rank < w.size && |outs| < |m.calls|
    decreases |m.calls| - |outs|, 0
  {
    (o: Output<E>) => ProgramProc(w, m, rank, outs + [o])
  }

  /** What the ranks bring to the next call when rank `r` has the outputs `outs[r]`. */
  ghost function Inputs<E>(w: World<E>, m: Program<E>, outs: seq<seq<Output<E>>>): (xs: seq<seq<E>>)
    requires |outs| == w.size
    ensures |xs| == w.size
  {
    seq(w.size, r requires 0 <= r < w.size => m.input(r, outs[r]))
  }

  /** Every rank's outputs after one more call. */
  ghost function OneMore<E>(w: World<E>, m: Program<E>, i: nat, outs: seq<seq<Output<E>>>): (next: seq<seq<Output<E>>>)
    requires |outs| == w.size && i < |m.calls| && Valid(w, m.calls[i], i, Inputs(w, m, outs))
    ensures |next| == w.size
  {
    seq(w.size, r requires 0 <= r < w.size => outs[r] + [Spec(w, m.calls[i], i, Inputs(w, m, outs), r)])
  }

  /** Call number `i` and all later ones are valid for the tensors the ranks then bring. */
  ghost predicate ValidFrom<E>(w: World<E>, m: Program<E>, i: nat, outs: seq<seq<Output<E>>>)
    requires |outs| == w.size && i <= |m.calls|
    decreases |m.calls| - i
  {
    i == |m.calls| || (Valid(w, m.calls[i], i, Inputs(w, m, outs)) && ValidFrom(w, m, i + 1, OneMore(w, m, i, outs)))
  }

  /** The outputs of the whole program, call by call. */
  ghost function SpecFrom<E>(w: World<E>, m: Program<E>, i: nat, outs: seq<seq<Output<E>>>): (all: seq<seq<Output<E>>>)
    requires |outs| == w.size && i <= |m.calls| && ValidFrom(w, m, i, outs)
    ensures |all| == w.size
    decreases |m.calls| - i
  {
    if i == |m.calls| then outs else SpecFrom(w, m, i + 1, OneMore(w, m, i, outs))
  }

  /** Rank `r` starts from here. */
  function StartProcs<E, C>(w: World<E>, m: Program<E>): (procs: seq<Proc<seq<E>, C, seq<Output<E>>>>)
    ensures |procs| == w.size
  {
    seq(w.size, r requires 0 <= r < w.size => ProgramProc(w, m, r, []))
  }

  function DoneAll<E, C>(all: seq<seq<Output<E>>>): (procs: seq<Proc<seq<E>, C, seq<Output<E>>>>)
    ensures |procs| == |all| && AllFinished(procs)
  {
    seq(|all|, r requires 0 <= r < |all| => Done(all[r]))
  }

  function ProgramFrames(size: nat, calls: seq<Call>): nat {
    if calls == [] then 0 else CallFrames(size, calls[0]) + ProgramFrames(size, calls[1..])
  }

  lemma {:induction false} ProgramRuns<E, C>(w: World<E>, m: Program<E>, i: nat, outs: seq<seq<Output<E>>>,
                                             procs: seq<Proc<seq<E>, C, seq<Output<E>>>>)
    requires |outs| == w.size == |procs| && i <= |m.calls| && ValidFrom(w, m, i, outs)
    requires forall r :: 0 <= r < w.size ==> |outs[r]| == i && procs[r] == ProgramProc(w, m, r, outs[r])
    ensures ReachesWith(procs, DoneAll(SpecFrom(w, m, i, outs)), ProgramFrames(w.size, m.calls[i..]))
    decreases |m.calls| - i
  {
    hide ReachesWith, Valid, Spec;
    if i == |m.calls| {
      assert procs == DoneAll(outs);
      WithNone(procs);
    } else {
      var xs := Inputs(w, m, outs);
      var ks := Continues<E, C>(w, m, i, outs);
      var next := CallCompletes(w, m.calls[i], i, xs, procs, ks);
      ProgramRuns(w, m, i + 1, OneMore(w, m, i, outs), next);
      assert m.calls[i..][1..] == m.calls[i + 1..];
      ThenWith(procs, next, DoneAll(SpecFrom(w, m, i, outs)), CallFrames(w.size, m.calls[i]), ProgramFrames(w.size, m.calls[i + 1..]));
    }
  }

  ghost function Continues<E, C>(w: World<E>, m: Program<E>, i: nat, outs: seq<seq<Output<E>>>): (ks: seq<Output<E> -> Proc<seq<E>, C, seq<Output<E>>>>)
    requires |outs| == w.size && i < |m.calls| && forall r :: 0 <= r < w.size ==> |outs[r]| == i
    ensures |ks| == w.size && forall r :: 0 <= r < w.size ==> ks[r] == Continue(w, m, r, outs[r])
  {
    seq(w.size, r requires 0 <= r < w.size => Continue(w, m, r, outs[r]))
  }

  /** Whole programs of collectives: for every schedule and every link capacity,
  the k-th call of every rank returns what the specification gives, no rank can get stuck, and when
  no step is left every rank is done, no frame is in flight or set aside, and exactly the frames of the
  calls have been handed over. */
  lemma ProgramsSettle<E, C>(w: World<E>, m: Program<E>, cap: Capacity)
    requires ValidFrom(w, m, 0, seq(w.size, _ => []))
    ensures Settles<seq<E>, C, seq<Output<E>>>(cap, StartProcs(w, m), DoneAll(SpecFrom(w, m, 0, seq(w.size, _ => []))),
                                               StepsFor(cap, ProgramFrames(w.size, m.calls)))
  {
    hide ReachesWith, Valid, Settles;
    var outs: seq<seq<Output<E>>> := seq(w.size, _ => []);
    assert m.calls[0..] == m.calls;
    ProgramRuns<E, C>(w, m, 0, outs, StartProcs(w, m));
    EverySchedule<seq<E>, C, seq<Output<E>>>(cap, StartProcs(w, m), DoneAll(SpecFrom(w, m, 0, outs)), ProgramFrames(w.size, m.calls));
  }
}
