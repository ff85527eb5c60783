/** One rank's communicator as the rank loops use it.

`script` is what the rank's program still has to do. Every operation takes the next step of the
script, so a method that brings the script from one point to another has sent and received exactly
what the program says, in that order. `incoming` is what the rank gets to take, frame by frame; running
out of it is a time-out.

No operation changes `Fate`: where the program ends on these frames, and all it sends on the way. So
what an object returns and sends is fixed by its input, and `Histories.HistoryReplays` says which input a
schedule of the whole world is. */
module Endpoints {
  import opened Options
  import opened Network
  import opened TcpBarrier
  import opened Histories

  datatype ReceiveError = NothingCame | UnexpectedFrame

  class Endpoint<T, C, R> {
    const size: nat
    const rank: nat
    var incoming: seq<Frame<T, C>>
    var outgoing: seq<(nat, Frame<T, C>)>
    ghost var script: Proc<T, C, R>

    constructor (size: nat, rank: nat, incoming: seq<Frame<T, C>>, ghost script: Proc<T, C, R>)
      requires rank < size
      ensures this.size == size && this.rank == rank && this.incoming == incoming && outgoing == [] && this.script == script
      ensures Fate() == Play(script, incoming)
    {
      this.size, this.rank, this.incoming, this.outgoing, this.script := size, rank, incoming, [], script;
    }

    /** The script waits for a frame and the transport has none for it. */
    ghost predicate Starved()
      reads this
    {
      script.Recv? && Waits(script.want, incoming)
    }

    /** Where the program ends when it goes on like this, and everything that has been sent by then. */
    ghost function Fate(): Played<T, C, R>
      reads this
    {
      SentFirst(outgoing, Play(script, incoming))
    }

    method Send(destination: nat, frame: Frame<T, C>)
      requires script.Send? && script.destination == destination && script.frame == frame
      modifies this`outgoing, this`script
      ensures script == old(script).next && outgoing == old(outgoing) + [(destination, frame)]
      ensures Fate() == old(Fate())
    {
      outgoing := outgoing + [(destination, frame)];
      script := script.next;
    }

    /** The next frame the transport has for this receive. */
    method Take(want: Want) returns (result: Result<Frame<T, C>, ReceiveError>)
      modifies this`incoming
      ensures result.Ok? <==> !Waits(want, old(incoming))
      ensures result.Ok? ==> result.value == old(incoming)[0] && incoming == old(incoming)[1..]
      ensures result.Err? ==> result.error == NothingCame && incoming == old(incoming)
    {
      if Waits(want, incoming) {
        return Err(NothingCame);
      }
      result := Ok(incoming[0]);
      incoming := incoming[1..];
    }

    /** A frame that is neither the awaited one nor one to set aside is a protocol error. */
    method Receive(source: nat, want: Want) returns (result: Result<Frame<T, C>, ReceiveError>)
      requires script.Recv? && script.source == source && script.want == want
      modifies this`incoming, this`script
      ensures result.Ok? ==> Exact(want, result.value) && script == old(script).resume(result.value)
      ensures result.Err? ==> if result.error == NothingCame then Starved() else script == Failed && (want.WantArrive? || want.WantRelease?)
      ensures Fate() == old(Fate())
    {
      result := Take(want);
      if result.Ok? {
        script := AfterTake(script, result.value);
        if !Exact(want, result.value) {
          return Err(UnexpectedFrame);
        }
      }
    }

    /** A send and a tensor receive side by side. */
    method Exchange(destination: nat, source: nat, tag: nat, x: T) returns (result: Result<T, ReceiveError>)
      requires script.Exchange? && script.destination == destination && script.source == source
      requires script.tag == tag && script.frame == Tensor(tag, x)
      modifies this`incoming, this`outgoing, this`script
      ensures result.Ok? ==> script == old(script).resume(Tensor(tag, result.value))
      ensures result.Err? ==> result.error == NothingCame && Starved()
      ensures outgoing == old(outgoing) + [(destination, Tensor(tag, x))]
      ensures Fate() == old(Fate())
    {
      outgoing := outgoing + [(destination, Tensor(tag, x))];
      var frame := Take(WantTensor(tag));
      if frame.Err? {
        script := AfterSend(script);
        return Err(frame.error);
      }
      script := script.resume(frame.value);
      return Ok(frame.value.tensor);
    }

    /** The TCP barrier: rank 0 collects the arrivals and releases everyone. */
    method Barrier(generation: nat, ghost next: Proc<T, C, R>) returns (result: Result<(), ReceiveError>)
      requires rank < size && script == BarrierProc(size, rank, generation, next)
      modifies this`incoming, this`outgoing, this`script
      ensures result.Ok? ==> script == next
      ensures result.Err? ==> if result.error == NothingCame then Starved() else script == Failed
      ensures Fate() == old(Fate())
    {
      hide Play;
      if rank != 0 {
        Send(0, Arrive(generation));
        var released := Receive(0, WantRelease(generation));
        return if released.Ok? then Ok(()) else Err(released.error);
      }
      for source := 1 to size
        invariant script == CollectArrivals(size, generation, source, next) && Fate() == old(Fate())
      {
        var arrived := Receive(source, WantArrive(generation));
        if arrived.Err? {
          return Err(arrived.error);
        }
      }
      for destination := 1 to size
        invariant script == SendReleases(size, generation, destination, next) && Fate() == old(Fate())
      {
        Send(destination, Release(generation));
      }
      return Ok(());
    }
  }
}
