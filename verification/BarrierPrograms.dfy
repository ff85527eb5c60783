/** The rank programs of the TCP barrier take the steps of the protocol whose safety `TcpBarrierSafety` proves.

A phase of the protocol is a place in the program (`ProgramAt`), and an inbox of tensors and barrier frames is an
inbox of the protocol (`ItemsOf`). What a rank sends and what its receive does then agree, including which frame of
the inbox is taken and that a frame of another generation ends in failure. */
module BarrierPrograms {
  import opened Network
  import opened Mailbox
  import opened Sequences
  import opened TcpBarrier
  import Safety = TcpBarrierSafety

  /** Where the program of rank `rank` stands in a phase; `next` is the program behind the barrier. */
  ghost function ProgramAt<T, C, R>(size: nat, rank: nat, phase: Safety.Phase, next: Proc<T, C, R>): Proc<T, C, R> {
    match phase
    case Outside(_) => next
    case Waiting(generation) => AfterArriving(size, rank, generation, next)
    case Collecting(generation, source) => CollectArrivals(size, generation, source, next)
    case Releasing(generation, destination) => SendReleases(size, generation, destination, next)
    case ProtocolError => Failed
  }

  function AfterArriving<T, C, R>(size: nat, rank: nat, generation: nat, next: Proc<T, C, R>): Proc<T, C, R> {
    var p := BarrierProc(size, rank, generation, next);
    if p.Send? then p.next else Failed
  }

  /** Tensors are payload, barrier frames are markers; a control frame never gets into a barrier. */
  predicate BarrierTraffic<T, C>(box: seq<Frame<T, C>>) {
    forall i :: 0 <= i < |box| ==> !box[i].Control?
  }

  function ItemOf<T, C>(f: Frame<T, C>): Safety.Item {
    match f
    case Tensor(tag, _) => Safety.Payload(tag)
    case Control(tag, _) => Safety.Payload(tag)
    case Arrive(generation) => Safety.Marker(generation)
    case Release(generation) => Safety.Marker(generation)
  }

  function ItemsOf<T, C>(box: seq<Frame<T, C>>): (items: Safety.Inbox)
    ensures |items| == |box|
  {
    seq(|box|, i requires 0 <= i < |box| => ItemOf(box[i]))
  }

  // ---- entering and leaving ----

  /** A rank enters with its arrival frame, rank 0 without a frame. */
  lemma Enters<T, C, R>(size: nat, rank: nat, generation: nat, next: Proc<T, C, R>)
    ensures rank == 0 ==> BarrierProc(size, rank, generation, next) == ProgramAt(size, rank, Safety.Collecting(generation, 1), next)
    ensures rank > 0 ==>
              var p := BarrierProc(size, rank, generation, next);
              p.Send? && p.destination == 0 && p.frame == Arrive(generation)
              && AfterSend(p) == ProgramAt(size, rank, Safety.Waiting(generation), next)
  {}

  /** Rank 0 turns to its releases exactly when all arrivals are in, sends one to every rank, and then leaves. */
  lemma Releases<T, C, R>(size: nat, generation: nat, at: nat, next: Proc<T, C, R>)
    ensures at >= size ==> ProgramAt(size, 0, Safety.Collecting(generation, at), next) == ProgramAt(size, 0, Safety.Releasing(generation, 1), next)
    ensures at >= size ==> ProgramAt(size, 0, Safety.Releasing(generation, at), next) == next
    ensures at < size ==>
              var p := ProgramAt(size, 0, Safety.Releasing(generation, at), next);
              p.Send? && p.destination == at && p.frame == Release(generation)
              && AfterSend(p) == ProgramAt(size, 0, Safety.Releasing(generation, at + 1), next)
  {}

  // ---- receiving ----

  lemma {:induction false} FirstMarkerIs(inbox: Safety.Inbox, i: nat)
    requires i <= |inbox| && (forall j :: 0 <= j < i ==> inbox[j].Payload?) && (i < |inbox| ==> inbox[i].Marker?)
    ensures Safety.FirstMarker(inbox) == i
  {
    if i > 0 {
      FirstMarkerIs(inbox[1..], i - 1);
    }
  }

  /** The frame that a barrier receive takes is the first marker of the inbox. */
  lemma TakesFirstMarker<T, C>(want: Want, aside: seq<Frame<T, C>>, flying: seq<Frame<T, C>>)
    requires (want.WantArrive? || want.WantRelease?) && BarrierTraffic(aside + flying)
    ensures TakeIndex(want, aside, flying) == Safety.FirstMarker(ItemsOf(aside + flying))
  {
    var box, k := aside + flying, TakeIndex(want, aside, flying);
    assert forall i :: 0 <= i < |aside| ==> box[i] == aside[i];
    assert forall i :: 0 <= i < |flying| ==> box[|aside| + i] == flying[i];
    forall j | 0 <= j < k ensures ItemOf(box[j]).Payload? {
      assert box[j] == if j < |aside| then aside[j] else flying[j - |aside|];
    }
    if k < |box| {
      assert box[k] == if k < |aside| then aside[k] else flying[k - |aside|];
    }
    FirstMarkerIs(ItemsOf(box), k);
  }

  /** The receive of rank 0 for the next arrival is the protocol's `Collect`. */
  lemma Collects<T, C, R>(s: Safety.State, aside: seq<Frame<T, C>>, flying: seq<Frame<T, C>>, next: Proc<T, C, R>)
    requires Safety.Possible(s, Safety.Collect) && s.phases[0].source < Safety.Size(s)
    requires BarrierTraffic(aside + flying) && (forall i :: 0 <= i < |aside + flying| ==> !(aside + flying)[i].Release?)
    requires ItemsOf(aside + flying) == s.up[s.phases[0].source]
    ensures var p, k := ProgramAt(Safety.Size(s), 0, s.phases[0], next), TakeIndex(WantArrive(s.phases[0].generation), aside, flying);
            && p.Recv? && p.source == s.phases[0].source && p.want == WantArrive(s.phases[0].generation) && k < |aside + flying|
            && AfterTake(p, (aside + flying)[k]) == ProgramAt(Safety.Size(s), 0, Safety.Next(s, Safety.Collect).phases[0], next)
            && (Safety.Next(s, Safety.Collect).phases[0].Collecting? ==>
                  ItemsOf(Without(aside + flying, k)) == Safety.Next(s, Safety.Collect).up[s.phases[0].source])
  {
    var g, source := s.phases[0].generation, s.phases[0].source;
    TakesFirstMarker(WantArrive(g), aside, flying);
    var box, k := aside + flying, TakeIndex(WantArrive(g), aside, flying);
    hide TakeIndex, Safety.FirstMarker;
    assert ItemsOf(box)[k] == ItemOf(box[k]);
    assert ItemsOf(Without(box, k)) == Without(ItemsOf(box), k);
  }

  /** The receive of another rank for its release is the protocol's `Resume`. */
  lemma Resumes<T, C, R>(s: Safety.State, rank: nat, aside: seq<Frame<T, C>>, flying: seq<Frame<T, C>>, next: Proc<T, C, R>)
    requires Safety.Possible(s, Safety.Resume(rank))
    requires BarrierTraffic(aside + flying) && (forall i :: 0 <= i < |aside + flying| ==> !(aside + flying)[i].Arrive?)
    requires ItemsOf(aside + flying) == s.down[rank]
    ensures var p, k := ProgramAt(Safety.Size(s), rank, s.phases[rank], next), TakeIndex(WantRelease(s.phases[rank].generation), aside, flying);
            && p.Recv? && p.source == 0 && p.want == WantRelease(s.phases[rank].generation) && k < |aside + flying|
            && AfterTake(p, (aside + flying)[k]) == ProgramAt(Safety.Size(s), rank, Safety.Next(s, Safety.Resume(rank)).phases[rank], next)
            && (Safety.Next(s, Safety.Resume(rank)).phases[rank].Outside? ==>
                  ItemsOf(Without(aside + flying, k)) == Safety.Next(s, Safety.Resume(rank)).down[rank])
  {
    var g := s.phases[rank].generation;
    TakesFirstMarker(WantRelease(g), aside, flying);
    var box, k := aside + flying, TakeIndex(WantRelease(g), aside, flying);
    hide TakeIndex, Safety.FirstMarker;
    assert ItemsOf(box)[k] == ItemOf(box[k]);
    assert ItemsOf(Without(box, k)) == Without(ItemsOf(box), k);
  }
}
