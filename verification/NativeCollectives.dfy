/** The collectives as they run: loops over ranks and steps that send, receive and overwrite their
accumulators, on top of the rank's endpoint.

A method that ends with the script at `k(output)` has done exactly the communication of the program in
`Collectives` and computed its output; `CollectiveSpecs` proves what that output is. */
module NativeCollectives {
  import opened Options
  import opened Arithmetic
  import opened Sequences
  import opened Network
  import opened Tags
  import opened Collectives
  import opened CollectiveSpecs
  import opened Endpoints
  import opened Histories

  datatype CollectiveError = TimedOut | SequenceOverflow | TagOverflow | RootOutside | ShapeMismatch | Indivisible | WrongPayload

  /** What `finish` records of one collective. */
  datatype Trace = Trace(sequence: nat, call: Call, sent: nat, received: nat)

  datatype Moved<E> = Moved(tensor: seq<E>, sent: nat, received: nat)

  /** One turn of each ring loop, with the indices as the code computes them; `y` is what arrives. */
  lemma ReduceTurn<E, C, R>(w: World<E>, rank: nat, sequence: nat, step: nat, chunks: seq<seq<E>>, sent: nat, received: nat,
                            k: (seq<seq<E>>, nat, nat) -> Proc<seq<E>, C, R>, p: Proc<seq<E>, C, R>)
    requires rank < w.size == |chunks| && step < w.size - 1 && p == RingReduce(w, rank, sequence, step, chunks, sent, received, k)
    ensures var give, tag := Mod(rank + w.size - step, w.size), CollectiveTag(sequence, AllReduce, 1, step);
            if tag.None? then p == Failed
            else p.Exchange? && p.destination == Mod(rank + 1, w.size) && p.source == Mod(rank + w.size - 1, w.size)
                 && p.tag == tag.value && p.frame == Tensor(tag.value, chunks[give])
  {
    hide RingShare, CollectiveTag, AddIncoming, Mod;
    WrapIsMod(rank + w.size - step, w.size);
    WrapIsMod(rank + 1, w.size);
    WrapIsMod(rank + w.size - 1, w.size);
  }

  lemma AfterReduceTurn<E, C, R>(w: World<E>, rank: nat, sequence: nat, step: nat, chunks: seq<seq<E>>, sent: nat, received: nat,
                                 k: (seq<seq<E>>, nat, nat) -> Proc<seq<E>, C, R>, p: Proc<seq<E>, C, R>, tag: nat, y: seq<E>)
    requires rank < w.size == |chunks| && step < w.size - 1 && p == RingReduce(w, rank, sequence, step, chunks, sent, received, k)
    requires CollectiveTag(sequence, AllReduce, 1, step) == Some(tag) && p.Exchange?
    ensures var give, take := Mod(rank + w.size - step, w.size), Mod(rank + w.size - step - 1, w.size);
            var sum := AddIncoming(w, chunks[take], y);
            p.resume(Tensor(tag, y)) ==
            if sum.None? then Failed
            else RingReduce(w, rank, sequence, step + 1, chunks[take := sum.value], sent + Bytes(w, chunks[give]), received + Bytes(w, y), k)
  {
    hide RingShare, CollectiveTag, AddIncoming, Mod;
    WrapIsMod(rank + w.size - step, w.size);
    WrapIsMod(rank + w.size - step - 1, w.size);
  }

  lemma ShareTurn<E, C, R>(w: World<E>, rank: nat, sequence: nat, step: nat, chunks: seq<seq<E>>, sent: nat, received: nat,
                           k: (seq<seq<E>>, nat, nat) -> Proc<seq<E>, C, R>, p: Proc<seq<E>, C, R>)
    requires rank < w.size == |chunks| && step < w.size - 1 && p == RingShare(w, rank, sequence, step, chunks, sent, received, k)
    ensures var give, tag := Mod(rank + 1 + w.size - step, w.size), CollectiveTag(sequence, AllReduce, 2, step);
            if tag.None? then p == Failed
            else p.Exchange? && p.destination == Mod(rank + 1, w.size) && p.source == Mod(rank + w.size - 1, w.size)
                 && p.tag == tag.value && p.frame == Tensor(tag.value, chunks[give])
  {
    hide CollectiveTag, Mod;
    WrapIsMod(rank + 1 + w.size - step, w.size);
    WrapIsMod(rank + 1, w.size);
    WrapIsMod(rank + w.size - 1, w.size);
  }

  lemma AfterShareTurn<E, C, R>(w: World<E>, rank: nat, sequence: nat, step: nat, chunks: seq<seq<E>>, sent: nat, received: nat,
                                k: (seq<seq<E>>, nat, nat) -> Proc<seq<E>, C, R>, p: Proc<seq<E>, C, R>, tag: nat, y: seq<E>)
    requires rank < w.size == |chunks| && step < w.size - 1 && p == RingShare(w, rank, sequence, step, chunks, sent, received, k)
    requires CollectiveTag(sequence, AllReduce, 2, step) == Some(tag) && p.Exchange?
    ensures var give, take := Mod(rank + 1 + w.size - step, w.size), Mod(rank + w.size - step, w.size);
            p.resume(Tensor(tag, y)) ==
            if |y| != |chunks[take]| then Failed
            else RingShare(w, rank, sequence, step + 1, chunks[take := y], sent + Bytes(w, chunks[give]), received + Bytes(w, y), k)
  {
    hide CollectiveTag, Mod;
    WrapIsMod(rank + 1 + w.size - step, w.size);
    WrapIsMod(rank + w.size - step, w.size);
  }

  lemma PairTurn<E, C, R>(w: World<E>, rank: nat, sequence: nat, step: nat, shards: seq<seq<E>>, got: seq<Option<seq<E>>>,
                          sent: nat, received: nat, k: Output<E> -> Proc<seq<E>, C, R>, p: Proc<seq<E>, C, R>)
    requires rank < w.size == |shards| == |got| && 1 <= step < w.size && p == PairwiseLoop(w, rank, sequence, step, shards, got, sent, received, k)
    ensures var destination, tag := Mod(rank + step, w.size), CollectiveTag(sequence, AllToAll, 0, step - 1);
            if tag.None? then p == Failed
            else p.Exchange? && p.destination == destination && p.source == Mod(rank + w.size - step, w.size)
                 && p.tag == tag.value && p.frame == Tensor(tag.value, shards[destination])
  {
    hide CollectiveTag, Mod;
    WrapIsMod(rank + step, w.size);
    WrapIsMod(rank + w.size - step, w.size);
  }

  lemma AfterPairTurn<E, C, R>(w: World<E>, rank: nat, sequence: nat, step: nat, shards: seq<seq<E>>, got: seq<Option<seq<E>>>,
                               sent: nat, received: nat, k: Output<E> -> Proc<seq<E>, C, R>, p: Proc<seq<E>, C, R>, tag: nat, y: seq<E>)
    requires rank < w.size == |shards| == |got| && 1 <= step < w.size && p == PairwiseLoop(w, rank, sequence, step, shards, got, sent, received, k)
    requires CollectiveTag(sequence, AllToAll, 0, step - 1) == Some(tag) && p.Exchange?
    ensures var destination, source := Mod(rank + step, w.size), Mod(rank + w.size - step, w.size);
            p.resume(Tensor(tag, y)) ==
            if !w.fits(shards[destination], y) then Failed
            else PairwiseLoop(w, rank, sequence, step + 1, shards, got[source := Some(y)], sent + Bytes(w, shards[destination]), received + Bytes(w, y), k)
  {
    hide CollectiveTag, Mod;
    WrapIsMod(rank + step, w.size);
    WrapIsMod(rank + w.size - step, w.size);
  }

  /** One turn of a scatter loop. */
  lemma ScatterUnfolds<E, C, R>(w: World<E>, d: nat, root: nat, tag: nat, pick: nat -> seq<E>, sent: nat, k: nat -> Proc<seq<E>, C, R>)
    ensures var p := ScatterLoop(w, d, root, tag, pick, sent, k);
            if d >= w.size then p == k(sent)
            else if d == root then p == ScatterLoop(w, d + 1, root, tag, pick, sent, k)
            else && p.Send? && p.destination == d && p.frame == Tensor(tag, pick(d))
                 && p.next == ScatterLoop(w, d + 1, root, tag, pick, sent + Bytes(w, pick(d)), k)
  {}

  class Communicator<E, C, R> {
    const world: World<E>
    const rank: nat
    const endpoint: Endpoint<seq<E>, C, R>
    var nextSequence: nat
    var traces: seq<Trace>

    constructor (world: World<E>, endpoint: Endpoint<seq<E>, C, R>)
      requires endpoint.rank < world.size == endpoint.size
      ensures this.world == world && this.rank == endpoint.rank && this.endpoint == endpoint && nextSequence == 0 && traces == []
    {
      this.world, this.rank, this.endpoint, this.nextSequence, this.traces := world, endpoint.rank, endpoint, 0, [];
    }

    // ---- tensors, with their payload bytes ----

    method Send(destination: nat, tag: nat, x: seq<E>) returns (bytes: nat)
      requires endpoint.script.Send? && endpoint.script.destination == destination && endpoint.script.frame == Tensor(tag, x)
      modifies endpoint
      ensures endpoint.Fate() == old(endpoint.Fate())
      ensures endpoint.script == old(endpoint.script).next && bytes == Bytes(world, x)
    {
      endpoint.Send(destination, Tensor(tag, x));
      bytes := Bytes(world, x);
    }

    method Receive(source: nat, tag: nat) returns (result: Result<seq<E>, CollectiveError>)
      requires endpoint.script.Recv? && endpoint.script.source == source && endpoint.script.want == WantTensor(tag)
      modifies endpoint
      ensures endpoint.Fate() == old(endpoint.Fate())
      ensures result.Ok? ==> endpoint.script == old(endpoint.script).resume(Tensor(tag, result.value))
      ensures result.Err? ==> result.error == TimedOut && endpoint.Starved()
    {
      var frame := endpoint.Receive(source, WantTensor(tag));
      return if frame.Ok? then Ok(frame.value.tensor) else Err(TimedOut);
    }

    method Exchange(destination: nat, source: nat, tag: nat, x: seq<E>) returns (result: Result<seq<E>, CollectiveError>)
      requires endpoint.script.Exchange? && endpoint.script.destination == destination && endpoint.script.source == source
      requires endpoint.script.tag == tag && endpoint.script.frame == Tensor(tag, x)
      modifies endpoint
      ensures endpoint.Fate() == old(endpoint.Fate())
      ensures result.Ok? ==> endpoint.script == old(endpoint.script).resume(Tensor(tag, result.value))
      ensures result.Err? ==> result.error == TimedOut && endpoint.Starved()
    {
      var taken := endpoint.Exchange(destination, source, tag, x);
      return if taken.Ok? then Ok(taken.value) else Err(TimedOut);
    }

    // ---- loops shared by several collectives ----

    /** Root side of a gather: adds up what the ranks `from..` other than the root send. */
    method GatherSum(from: nat, root: nat, tag: nat, x: seq<E>, ghost k: (seq<E>, nat) -> Proc<seq<E>, C, R>) returns (result: Result<Moved<E>, CollectiveError>)
      requires rank < world.size && from <= world.size
      requires endpoint.script == GatherLoop(world, from, root, tag, x, 0, Adding(world), k)
      modifies endpoint
      ensures endpoint.Fate() == old(endpoint.Fate())
      ensures result.Ok? ==> endpoint.script == k(result.value.tensor, result.value.received) && result.value.sent == 0
      ensures result.Err? ==> (result.error == TimedOut && endpoint.Starved()) || (result.error == ShapeMismatch && endpoint.script == Failed)
    {
      var reduced, received: nat := x, 0;
      for source := from to world.size
        invariant endpoint.Fate() == old(endpoint.Fate())
        invariant |reduced| == |x| && endpoint.script == GatherLoop(world, source, root, tag, reduced, received, Adding(world), k)
      {
        if source != root {
          var taken := Receive(source, tag);
          if taken.Err? {
            return Err(taken.error);
          }
          if |taken.value| != |x| {
            return Err(ShapeMismatch);
          }
          received := received + Bytes(world, taken.value);
          reduced := Zip(world.plus, reduced, taken.value);
        }
      }
      return Ok(Moved(reduced, 0, received));
    }

    /** Root side of a scatter: sends every rank but the root its pick. */
    method ScatterPicks(from: nat, root: nat, tag: nat, pick: nat -> seq<E>, ghost k: nat -> Proc<seq<E>, C, R>) returns (sent: nat)
      requires rank < world.size && from <= world.size
      requires endpoint.script == ScatterLoop(world, from, root, tag, pick, 0, k)
      modifies endpoint
      ensures endpoint.Fate() == old(endpoint.Fate())
      ensures endpoint.script == k(sent)
    {
      hide Play, SentFirst, ScatterLoop;
      sent := 0;
      for destination := from to world.size
        invariant endpoint.Fate() == old(endpoint.Fate())
        invariant endpoint.script == ScatterLoop(world, destination, root, tag, pick, sent, k)
      {
        ScatterUnfolds(world, destination, root, tag, pick, sent, k);
        if destination != root {
          var bytes := Send(destination, tag, pick(destination));
          sent := sent + bytes;
        }
      }
      ScatterUnfolds(world, world.size, root, tag, pick, sent, k);
    }

    // ---- the ring ----

    /** `ring_all_reduce`: two phases over an array of chunks. */
    method RingAllReduce(sequence: nat, x: seq<E>, ghost k: Output<E> -> Proc<seq<E>, C, R>) returns (result: Result<Moved<E>, CollectiveError>)
      requires rank < world.size && endpoint.script == RingProc(world, rank, sequence, x, k)
      modifies endpoint
      ensures endpoint.Fate() == old(endpoint.Fate())
      ensures result.Ok? ==> endpoint.script == k(Output(Some(result.value.tensor), result.value.sent, result.value.received))
      ensures result.Err? ==> (result.error == TimedOut && endpoint.Starved()) || endpoint.script == Failed
    {
      hide RingReduce;
      var size := world.size;
      if size == 1 {
        return Ok(Moved(x, 0, 0));
      }
      if |x| % size != 0 {
        return Err(Indivisible);
      }
      var slices := Chunks(world, x);
      var chunks := new seq<E>[size](i requires 0 <= i < size => slices[i]);
      assert chunks[..] == slices;
      result := RingPhaseOne(sequence, chunks, ThenConcat(k));
      if result.Err? {
        return;
      }
      result := RingPhaseTwo(sequence, chunks, result.value.sent, result.value.received, ThenConcat(k));
      if result.Err? {
        return;
      }
      return Ok(Moved(Join(chunks[..]), result.value.sent, result.value.received));
    }

    /** One turn of the first loop: the incoming chunk is added to the local one. */
    method ReduceStep(sequence: nat, step: nat, chunks: array<seq<E>>, sent: nat, received: nat, ghost k: (seq<seq<E>>, nat, nat) -> Proc<seq<E>, C, R>) returns (result: Result<Moved<E>, CollectiveError>)
      requires rank < world.size == chunks.Length && step < world.size - 1
      requires endpoint.script == RingReduce(world, rank, sequence, step, chunks[..], sent, received, k)
      modifies endpoint, chunks
      ensures endpoint.Fate() == old(endpoint.Fate())
      ensures result.Ok? ==> endpoint.script == RingReduce(world, rank, sequence, step + 1, chunks[..], result.value.sent, result.value.received, k)
      ensures result.Ok? ==> exists y: seq<E> ::
                chunks[..] == old(chunks[..])[Mod(rank + world.size - step - 1, world.size) := y]
                && AddIncoming(world, old(chunks[..])[Mod(rank + world.size - step - 1, world.size)], result.value.tensor) == Some(y)
      ensures result.Err? ==> (result.error == TimedOut && endpoint.Starved()) || endpoint.script == Failed
    {
      hide RingReduce, RingShare, CollectiveTag, AddIncoming, Mod;
      var size := world.size;
      ghost var before, turn := chunks[..], endpoint.script;
      ReduceTurn(world, rank, sequence, step, before, sent, received, k, turn);
      var sendIndex, receiveIndex := Mod(rank + size - step, size), Mod(rank + size - step - 1, size);
      var tag := CollectiveTag(sequence, AllReduce, 1, step);
      if tag.None? {
        return Err(TagOverflow);
      }
      var taken := Exchange(Mod(rank + 1, size), Mod(rank + size - 1, size), tag.value, chunks[sendIndex]);
      if taken.Err? {
        return Err(taken.error);
      }
      AfterReduceTurn(world, rank, sequence, step, before, sent, received, k, turn, tag.value, taken.value);
      var sum := AddIncoming(world, chunks[receiveIndex], taken.value);
      if sum.None? {
        return Err(ShapeMismatch);
      }
      result := Ok(Moved(taken.value, sent + Bytes(world, chunks[sendIndex]), received + Bytes(world, taken.value)));
      chunks[receiveIndex] := sum.value;
      assert chunks[..] == before[receiveIndex := sum.value];
    }

    method RingPhaseOne(sequence: nat, chunks: array<seq<E>>, ghost k: (seq<seq<E>>, nat, nat) -> Proc<seq<E>, C, R>) returns (result: Result<Moved<E>, CollectiveError>)
      requires rank < world.size == chunks.Length && world.size > 1
      requires endpoint.script == RingReduce(world, rank, sequence, 0, chunks[..], 0, 0, k)
      modifies endpoint, chunks
      ensures endpoint.Fate() == old(endpoint.Fate())
      ensures result.Ok? ==> endpoint.script == RingShare(world, rank, sequence, 0, chunks[..], result.value.sent, result.value.received, k)
      ensures result.Err? ==> (result.error == TimedOut && endpoint.Starved()) || endpoint.script == Failed
    {
      var sent: nat, received: nat := 0, 0;
      for step := 0 to world.size - 1
        invariant endpoint.Fate() == old(endpoint.Fate())
        invariant endpoint.script == RingReduce(world, rank, sequence, step, chunks[..], sent, received, k)
      {
        hide RingReduce;
        result := ReduceStep(sequence, step, chunks, sent, received, k);
        if result.Err? {
          return;
        }
        sent, received := result.value.sent, result.value.received;
      }
      return Ok(Moved([], sent, received));
    }

    /** One turn of the second loop: the incoming chunk replaces the local one. */
    method ShareStep(sequence: nat, step: nat, chunks: array<seq<E>>, sent: nat, received: nat, ghost k: (seq<seq<E>>, nat, nat) -> Proc<seq<E>, C, R>) returns (result: Result<Moved<E>, CollectiveError>)
      requires rank < world.size == chunks.Length && step < world.size - 1
      requires endpoint.script == RingShare(world, rank, sequence, step, chunks[..], sent, received, k)
      modifies endpoint, chunks
      ensures endpoint.Fate() == old(endpoint.Fate())
      ensures result.Ok? ==> endpoint.script == RingShare(world, rank, sequence, step + 1, chunks[..], result.value.sent, result.value.received, k)
      ensures result.Ok? ==> chunks[..] == old(chunks[..])[Mod(rank + world.size - step, world.size) := result.value.tensor]
      ensures result.Err? ==> (result.error == TimedOut && endpoint.Starved()) || endpoint.script == Failed
    {
      hide RingReduce, RingShare, CollectiveTag, AddIncoming, Mod;
      var size := world.size;
      ghost var before, turn := chunks[..], endpoint.script;
      ShareTurn(world, rank, sequence, step, before, sent, received, k, turn);
      var sendIndex, receiveIndex := Mod(rank + 1 + size - step, size), Mod(rank + size - step, size);
      var tag := CollectiveTag(sequence, AllReduce, 2, step);
      if tag.None? {
        return Err(TagOverflow);
      }
      var taken := Exchange(Mod(rank + 1, size), Mod(rank + size - 1, size), tag.value, chunks[sendIndex]);
      if taken.Err? {
        return Err(taken.error);
      }
      AfterShareTurn(world, rank, sequence, step, before, sent, received, k, turn, tag.value, taken.value);
      if |taken.value| != |chunks[receiveIndex]| {
        return Err(ShapeMismatch);
      }
      result := Ok(Moved(taken.value, sent + Bytes(world, chunks[sendIndex]), received + Bytes(world, taken.value)));
      chunks[receiveIndex] := taken.value;
      assert chunks[..] == before[receiveIndex := taken.value];
    }

    method RingPhaseTwo(sequence: nat, chunks: array<seq<E>>, sent0: nat, received0: nat, ghost k: (seq<seq<E>>, nat, nat) -> Proc<seq<E>, C, R>) returns (result: Result<Moved<E>, CollectiveError>)
      requires rank < world.size == chunks.Length && world.size > 1
      requires endpoint.script == RingShare(world, rank, sequence, 0, chunks[..], sent0, received0, k)
      modifies endpoint, chunks
      ensures endpoint.Fate() == old(endpoint.Fate())
      ensures result.Ok? ==> endpoint.script == k(chunks[..], result.value.sent, result.value.received)
      ensures result.Err? ==> (result.error == TimedOut && endpoint.Starved()) || endpoint.script == Failed
    {
      var sent: nat, received: nat := sent0, received0;
      for step := 0 to world.size - 1
        invariant endpoint.Fate() == old(endpoint.Fate())
        invariant endpoint.script == RingShare(world, rank, sequence, step, chunks[..], sent, received, k)
      {
        hide RingShare;
        result := ShareStep(sequence, step, chunks, sent, received, k);
        if result.Err? {
          return;
        }
        sent, received := result.value.sent, result.value.received;
      }
      return Ok(Moved([], sent, received));
    }

    // ---- gathering and scattering through rank 0 ----

    /** Root side of all-gather: collects the shards in rank order. */
    method GatherShards(tag: nat, x: seq<E>, ghost k: (seq<E>, nat) -> Proc<seq<E>, C, R>) returns (result: Result<Moved<E>, CollectiveError>)
      requires rank < world.size && endpoint.script == GatherLoop(world, 1, 0, tag, x, 0, Pushing(world, x), k)
      modifies endpoint
      ensures endpoint.Fate() == old(endpoint.Fate())
      ensures result.Ok? ==> endpoint.script == k(result.value.tensor, result.value.received)
      ensures result.Err? ==> (result.error == TimedOut && endpoint.Starved()) || endpoint.script == Failed
    {
      var shards, received: nat := [x], 0;
      assert Join([x]) == x + Join([]) == x;
      for source := 1 to world.size
        invariant endpoint.Fate() == old(endpoint.Fate())
        invariant endpoint.script == GatherLoop(world, source, 0, tag, Join(shards), received, Pushing(world, x), k)
      {
        var taken := Receive(source, tag);
        if taken.Err? {
          return Err(taken.error);
        }
        if !world.fits(x, taken.value) {
          return Err(ShapeMismatch);
        }
        JoinSplit(shards, [taken.value]);
        assert Join([taken.value]) == taken.value + Join([]) == taken.value;
        shards := shards + [taken.value];
        received := received + Bytes(world, taken.value);
      }
      return Ok(Moved(Join(shards), 0, received));
    }

    /** Every rank but 0: hand in the tensor and wait for the answer. */
    method HandIn(gatherTag: nat, scatterTag: nat, x: seq<E>, ghost absorb: (seq<E>, seq<E>) -> Option<seq<E>>,
                  ghost pick: (seq<E>, nat) -> seq<E>, check: seq<E> -> bool, ghost k: Output<E> -> Proc<seq<E>, C, R>) returns (result: Result<Moved<E>, CollectiveError>)
      requires 0 < rank < world.size && endpoint.script == GatherScatter(world, rank, gatherTag, scatterTag, x, absorb, pick, check, k)
      modifies endpoint
      ensures endpoint.Fate() == old(endpoint.Fate())
      ensures result.Ok? ==> endpoint.script == k(Output(Some(result.value.tensor), result.value.sent, result.value.received))
      ensures result.Err? ==> (result.error == TimedOut && endpoint.Starved()) || endpoint.script == Failed
    {
      var sent := Send(0, gatherTag, x);
      var taken := Receive(0, scatterTag);
      if taken.Err? {
        return Err(taken.error);
      }
      if !check(taken.value) {
        return Err(ShapeMismatch);
      }
      return Ok(Moved(taken.value, sent, Bytes(world, taken.value)));
    }

    /** `centralized_all_reduce`. */
    method CentralizedAllReduce(gatherTag: nat, scatterTag: nat, x: seq<E>, ghost k: Output<E> -> Proc<seq<E>, C, R>) returns (result: Result<Moved<E>, CollectiveError>)
      requires rank < world.size && endpoint.script == GatherScatter(world, rank, gatherTag, scatterTag, x, Adding(world), Whole(), SameShape(x), k)
      modifies endpoint
      ensures endpoint.Fate() == old(endpoint.Fate())
      ensures result.Ok? ==> endpoint.script == k(Output(Some(result.value.tensor), result.value.sent, result.value.received))
      ensures result.Err? ==> (result.error == TimedOut && endpoint.Starved()) || endpoint.script == Failed
    {
      if rank != 0 {
        result := HandIn(gatherTag, scatterTag, x, Adding(world), Whole(), SameShape(x), k);
        return;
      }
      result := GatherSum(1, 0, gatherTag, x, ThenScatter(world, scatterTag, Whole(), k));
      if result.Err? {
        return;
      }
      var reduced, received := result.value.tensor, result.value.received;
      assert Whole<E>()(reduced, 0) == reduced;
      var sent := ScatterPicks(1, 0, scatterTag, ShareOf(Whole(), reduced), ThenFinish(Some(reduced), received, k));
      return Ok(Moved(reduced, sent, received));
    }

    /** `all_gather`. */
    method GatherAndBroadcast(gatherTag: nat, scatterTag: nat, x: seq<E>, ghost k: Output<E> -> Proc<seq<E>, C, R>) returns (result: Result<Moved<E>, CollectiveError>)
      requires rank < world.size && endpoint.script == GatherScatter(world, rank, gatherTag, scatterTag, x, Pushing(world, x), Whole(), AnyShape(), k)
      modifies endpoint
      ensures endpoint.Fate() == old(endpoint.Fate())
      ensures result.Ok? ==> endpoint.script == k(Output(Some(result.value.tensor), result.value.sent, result.value.received))
      ensures result.Err? ==> (result.error == TimedOut && endpoint.Starved()) || endpoint.script == Failed
    {
      if rank != 0 {
        result := HandIn(gatherTag, scatterTag, x, Pushing(world, x), Whole(), AnyShape(), k);
        return;
      }
      result := GatherShards(gatherTag, x, ThenScatter(world, scatterTag, Whole(), k));
      if result.Err? {
        return;
      }
      var gathered, received := result.value.tensor, result.value.received;
      assert Whole<E>()(gathered, 0) == gathered;
      var sent := ScatterPicks(1, 0, scatterTag, ShareOf(Whole(), gathered), ThenFinish(Some(gathered), received, k));
      return Ok(Moved(gathered, sent, received));
    }

    /** `reduce_scatter`: the sum stays on rank 0, which sends out its slices. */
    method SumAndScatter(gatherTag: nat, scatterTag: nat, x: seq<E>, ghost k: Output<E> -> Proc<seq<E>, C, R>) returns (result: Result<Moved<E>, CollectiveError>)
      requires rank < world.size && endpoint.script == GatherScatter(world, rank, gatherTag, scatterTag, x, Adding(world), ShardFor(world), AnyShape(), k)
      modifies endpoint
      ensures endpoint.Fate() == old(endpoint.Fate())
      ensures result.Ok? ==> endpoint.script == k(Output(Some(result.value.tensor), result.value.sent, result.value.received))
      ensures result.Err? ==> (result.error == TimedOut && endpoint.Starved()) || endpoint.script == Failed
    {
      if rank != 0 {
        result := HandIn(gatherTag, scatterTag, x, Adding(world), ShardFor(world), AnyShape(), k);
        return;
      }
      result := GatherSum(1, 0, gatherTag, x, ThenScatter(world, scatterTag, ShardFor(world), k));
      if result.Err? {
        return;
      }
      var reduced, received := result.value.tensor, result.value.received;
      var local := ShardFor(world)(reduced, 0);
      var sent := ScatterPicks(1, 0, scatterTag, ShareOf(ShardFor(world), reduced), ThenFinish(Some(local), received, k));
      return Ok(Moved(local, sent, received));
    }

    // ---- the pairwise exchange ----

    /** One round of `all_to_all`: the shard that arrives goes into the slot of its source. */
    method PairRound(sequence: nat, step: nat, shards: seq<seq<E>>, slots: seq<Option<seq<E>>>, sent: nat, received: nat,
                     ghost k: Output<E> -> Proc<seq<E>, C, R>) returns (result: Result<(seq<Option<seq<E>>>, nat, nat), CollectiveError>)
      requires rank < world.size == |shards| == |slots| && 1 <= step < world.size
      requires endpoint.script == PairwiseLoop(world, rank, sequence, step, shards, slots, sent, received, k)
      modifies endpoint
      ensures endpoint.Fate() == old(endpoint.Fate())
      ensures result.Ok? ==>
                && |result.value.0| == world.size
                && endpoint.script == PairwiseLoop(world, rank, sequence, step + 1, shards, result.value.0, result.value.1, result.value.2, k)
      ensures result.Err? ==> (result.error == TimedOut && endpoint.Starved()) || endpoint.script == Failed
    {
      hide CollectiveTag, PairwiseLoop, Mod;
      var size := world.size;
      ghost var turn := endpoint.script;
      PairTurn(world, rank, sequence, step, shards, slots, sent, received, k, turn);
      var destination, source := Mod(rank + step, size), Mod(rank + size - step, size);
      var tag := CollectiveTag(sequence, AllToAll, 0, step - 1);
      if tag.None? {
        return Err(TagOverflow);
      }
      var taken := Exchange(destination, source, tag.value, shards[destination]);
      if taken.Err? {
        return Err(taken.error);
      }
      AfterPairTurn(world, rank, sequence, step, shards, slots, sent, received, k, turn, tag.value, taken.value);
      if !world.fits(shards[destination], taken.value) {
        return Err(ShapeMismatch);
      }
      return Ok((slots[source := Some(taken.value)], sent + Bytes(world, shards[destination]), received + Bytes(world, taken.value)));
    }

    /** The rounds of `all_to_all`; every source fills its own slot. */
    method PairwiseRounds(sequence: nat, shards: seq<seq<E>>, ghost k: Output<E> -> Proc<seq<E>, C, R>) returns (result: Result<Moved<E>, CollectiveError>)
      requires rank < world.size == |shards|
      requires endpoint.script == PairwiseLoop(world, rank, sequence, 1, shards, OwnShard(shards, rank), 0, 0, k)
      modifies endpoint
      ensures endpoint.Fate() == old(endpoint.Fate())
      ensures result.Ok? ==> endpoint.script == k(Output(Some(result.value.tensor), result.value.sent, result.value.received))
      ensures result.Err? ==> (result.error == TimedOut && endpoint.Starved()) || endpoint.script == Failed
    {
      var sent: nat, received: nat := 0, 0;
      var slots := OwnShard(shards, rank);
      for step := 1 to world.size
        invariant endpoint.Fate() == old(endpoint.Fate())
        invariant |slots| == world.size && endpoint.script == PairwiseLoop(world, rank, sequence, step, shards, slots, sent, received, k)
      {
        hide PairwiseLoop;
        var round := PairRound(sequence, step, shards, slots, sent, received, k);
        if round.Err? {
          return Err(round.error);
        }
        slots, sent, received := round.value.0, round.value.1, round.value.2;
      }
      if !AllArrived(slots) {
        return Err(WrongPayload);
      }
      return Ok(Moved(Join(Arrived(slots)), sent, received));
    }

    // ---- the public calls ----

    method Broadcast(tag: nat, root: nat, x: seq<E>, ghost k: Output<E> -> Proc<seq<E>, C, R>) returns (result: Result<Moved<E>, CollectiveError>)
      requires rank < world.size && endpoint.script == BroadcastProc(world, rank, root, tag, x, k)
      modifies endpoint
      ensures endpoint.Fate() == old(endpoint.Fate())
      ensures result.Ok? ==> endpoint.script == k(Output(Some(result.value.tensor), result.value.sent, result.value.received))
      ensures result.Err? ==> result.error == TimedOut && endpoint.Starved()
    {
      if rank == root {
        var sent := ScatterPicks(0, root, tag, ShareOf(Whole(), x), ThenFinish(Some(x), 0, k));
        return Ok(Moved(x, sent, 0));
      }
      var taken := Receive(root, tag);
      if taken.Err? {
        return Err(taken.error);
      }
      return Ok(Moved(taken.value, 0, Bytes(world, taken.value)));
    }

    /** `reduce` returns a tensor on the root only. */
    method Reduce(tag: nat, root: nat, x: seq<E>, ghost k: Output<E> -> Proc<seq<E>, C, R>) returns (result: Result<Output<E>, CollectiveError>)
      requires rank < world.size && endpoint.script == ReduceProc(world, rank, root, tag, x, k)
      modifies endpoint
      ensures endpoint.Fate() == old(endpoint.Fate())
      ensures result.Ok? ==> endpoint.script == k(result.value) && (result.value.tensor.Some? <==> rank == root)
      ensures result.Err? ==> (result.error == TimedOut && endpoint.Starved()) || endpoint.script == Failed
    {
      if rank != root {
        var sent := Send(root, tag, x);
        return Ok(Output(None, sent, 0));
      }
      var moved := GatherSum(0, root, tag, x, ThenKeep(k));
      if moved.Err? {
        return Err(moved.error);
      }
      return Ok(Output(Some(moved.value.tensor), 0, moved.value.received));
    }

    /** One collective: `begin`, the algorithm, `finish`. The sequence number is used up even when the call
    fails, unless the counter itself overflows; a trace is recorded only when it succeeds. */
    method Run(call: Call, x: seq<E>, ghost k: Output<E> -> Proc<seq<E>, C, R>) returns (result: Result<Output<E>, CollectiveError>)
      requires rank < world.size && endpoint.script == CallProc(world, call, rank, nextSequence, x, k)
      modifies this, endpoint
      ensures endpoint.Fate() == old(endpoint.Fate())
      ensures nextSequence == if old(nextSequence) + 1 < U64_LIMIT then old(nextSequence) + 1 else old(nextSequence)
      ensures result.Ok? ==> endpoint.script == k(result.value) && nextSequence == old(nextSequence) + 1
      ensures result.Ok? ==> traces == old(traces) + [Trace(old(nextSequence), call, result.value.sent, result.value.received)]
      ensures result.Err? ==> traces == old(traces) && ((result.error == TimedOut && endpoint.Starved()) || endpoint.script == Failed)
    {
      hide CollectiveTag, GatherScatter, RingProc, PairwiseLoop, BroadcastProc, ReduceProc;
      var sequence, kind := nextSequence, KindOf(call);
      if sequence + 1 >= U64_LIMIT {
        CollectiveTagExact(sequence, kind, 0, 0);
        return Err(SequenceOverflow);
      }
      nextSequence := nextSequence + 1;
      var tag0, tag1, tag2 := CollectiveTag(sequence, kind, 0, 0), CollectiveTag(sequence, kind, 1, 0), CollectiveTag(sequence, kind, 2, 0);
      if tag0.None? || tag1.None? || tag2.None? {
        return Err(TagOverflow);
      }
      if !RootFits(call, world.size) {
        return Err(RootOutside);
      }
      var moved: Result<Moved<E>, CollectiveError>;
      match call {
        case ReduceCall(root) =>
          result := Reduce(tag0.value, root, x, k);
          if result.Ok? {
            traces := traces + [Trace(sequence, call, result.value.sent, result.value.received)];
          }
          return;
        case BroadcastCall(root) =>
          moved := Broadcast(tag0.value, root, x, k);
        case AllGatherCall =>
          moved := GatherAndBroadcast(tag1.value, tag2.value, x, k);
        case CentralizedAllReduceCall =>
          moved := CentralizedAllReduce(tag1.value, tag2.value, x, k);
        case RingAllReduceCall =>
          moved := RingAllReduce(sequence, x, k);
        case ReduceScatterCall =>
          if |x| % world.size != 0 {
            return Err(Indivisible);
          }
          moved := SumAndScatter(tag1.value, tag2.value, x, k);
        case AllToAllCall =>
          if |x| % world.size != 0 {
            return Err(Indivisible);
          }
          moved := PairwiseRounds(sequence, Chunks(world, x), k);
      }
      if moved.Err? {
        return Err(moved.error);
      }
      result := Ok(Output(Some(moved.value.tensor), moved.value.sent, moved.value.received));
      traces := traces + [Trace(sequence, call, result.value.sent, result.value.received)];
    }
  }

  // ---- whole programs of calls ----

  /** The communicator makes the calls of the program one after the other. */
  method RunProgram<E, C>(communicator: Communicator<E, C, seq<Output<E>>>, m: Program<E>) returns (result: Result<seq<Output<E>>, CollectiveError>)
    requires communicator.rank < communicator.world.size && communicator.nextSequence == 0
    requires communicator.endpoint.script == ProgramProc(communicator.world, m, communicator.rank, [])
    modifies communicator, communicator.endpoint
    ensures communicator.endpoint.Fate() == old(communicator.endpoint.Fate())
    ensures result.Ok? ==> communicator.endpoint.script == Done(result.value) && |result.value| == |m.calls|
    ensures result.Err? ==> (result.error == TimedOut && communicator.endpoint.Starved()) || communicator.endpoint.script == Failed
  {
    hide CallProc, Play;
    var outs: seq<Output<E>> := [];
    while |outs| < |m.calls|
      invariant |outs| == communicator.nextSequence <= |m.calls|
      invariant communicator.endpoint.script == ProgramProc(communicator.world, m, communicator.rank, outs)
      invariant communicator.endpoint.Fate() == old(communicator.endpoint.Fate())
    {
      var output := communicator.Run(m.calls[|outs|], m.input(communicator.rank, outs), Continue(communicator.world, m, communicator.rank, outs));
      if output.Err? {
        return Err(output.error);
      }
      outs := outs + [output.value];
    }
    return Ok(outs);
  }

  /** What the rank took and sent in the schedule, and the outputs with which it finished. */
  lemma FinishedOutputs<E, C>(w: World<E>, m: Program<E>, cap: Capacity, schedule: seq<Act>, r: nat)
    requires ValidFrom(w, m, 0, seq(w.size, _ => [])) && HasFinished(StartProcs<E, C>(w, m), cap, schedule, r)
    ensures r < w.size
    ensures var h := HistoryOf(cap, Quiet(StartProcs<E, C>(w, m)), schedule, r);
            Play(ProgramProc<E, C>(w, m, r, []), h.taken) == Played(Done(SpecFrom(w, m, 0, seq(w.size, _ => []))[r]), h.sent)
  {
    hide ValidFrom, SpecFrom, ProgramProc, HistoryOf, Enabled, Play;
    var start, all := StartProcs<E, C>(w, m), SpecFrom(w, m, 0, seq(w.size, _ => []));
    ProgramsSettle<E, C>(w, m, cap);
    HistoryReplays(cap, Quiet(start), schedule, r);
    var h := HistoryOf(cap, Quiet(start), schedule, r);
    assert Run(cap, Quiet(start), schedule).procs[r] == DoneAll<E, C>(all)[r];
    PlayedOut<seq<E>, C, seq<Output<E>>>(all[r]);
    assert h.sent + [] == h.sent;
  }

  /** The communicator in any run of the whole world: given the frames that the rank takes in a schedule which
  finishes it, every call of the program returns what the specification gives, and the object sends exactly the
  frames that the rank sends there, in the same order. */
  method RunInWorld<E, C>(w: World<E>, m: Program<E>, r: nat, incoming: seq<Frame<seq<E>, C>>, ghost cap: Capacity, ghost schedule: seq<Act>)
    returns (outs: seq<Output<E>>, sent: seq<(nat, Frame<seq<E>, C>)>)
    requires ValidFrom(w, m, 0, seq(w.size, _ => [])) && HasFinished(StartProcs<E, C>(w, m), cap, schedule, r)
    requires incoming == HistoryOf(cap, Quiet(StartProcs<E, C>(w, m)), schedule, r).taken
    ensures r < w.size && outs == SpecFrom(w, m, 0, seq(w.size, _ => []))[r]
    ensures sent == HistoryOf(cap, Quiet(StartProcs<E, C>(w, m)), schedule, r).sent
  {
    hide ValidFrom, SpecFrom, ProgramProc, HistoryOf, HasFinished;
    FinishedOutputs<E, C>(w, m, cap, schedule, r);
    var endpoint := new Endpoint<seq<E>, C, seq<Output<E>>>(w.size, r, incoming, ProgramProc<E, C>(w, m, r, []));
    var communicator := new Communicator<E, C, seq<Output<E>>>(w, endpoint);
    var result := RunProgram(communicator, m);
    outs, sent := result.value, endpoint.outgoing;
  }
}
